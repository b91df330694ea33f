/** What a client may rely on over any sequence of operations on a byte_buffer, and what becomes of
    prepared regions. */
module ByteBufferRuns {
  import opened Basics
  import opened ByteRing
  import opened ByteBuffers

  // ---- what becomes of prepared regions ----

  /** Where the contents start after the first m of them are consumed. */
  function AfterConsume(capacity: nat, start: nat, size: nat, m: nat): nat
    requires start < capacity && m <= size <= capacity
  {
    if m == 0 then start else if m == size then 0 else At(capacity, start, m)
  }

  /** Uncommitted prepared cells still follow the contents after m > 0 bytes are consumed if and only if
      some content is left, or the cell after the contents happens to be the first of the storage: an
      emptied buffer starts again at its first cell. */
  lemma ConsumeKeepsRegions(capacity: nat, start: nat, size: nat, rs: (Region, Region), done: nat, n: nat, m: nat)
    requires Tracks(capacity, start, size, rs, done, n) && done < n && 0 < m <= size
    ensures Tracks(capacity, AfterConsume(capacity, start, size, m), size - m, rs, done, n)
      <==> m < size || At(capacity, start, size) == 0
  {
    assert Cell(rs, done) == At(capacity, start, size + (done - done));
    var start' := AfterConsume(capacity, start, size, m);
    if m == size && At(capacity, start, size) != 0 {
      assert Cell(rs, done) != At(capacity, start', 0 + (done - done));
    }
  }

  lemma CommitKeepsRegions(capacity: nat, start: nat, size: nat, rs: (Region, Region), done: nat, n: nat, k: nat)
    requires Tracks(capacity, start, size, rs, done, n) && done + k <= n
    ensures Tracks(capacity, start, size + k, rs, done + k, n)
  {}

  /** The same in place. */
  method ConsumePrepared(b: ByteBuffer, rs: (Region, Region), n: nat, m: nat)
    requires b.Valid() && b.Follows(rs, n) && n > 0 && 0 < m <= b.size
    modifies b`readIndex, b`size
    ensures b.Valid() && b.Contents() == old(b.Contents())[m..]
    ensures b.Follows(rs, n) <==> m < old(b.size) || old(b.WriteIndex()) == 0
  {
    ConsumeKeepsRegions(b.storage.Length, b.readIndex, b.size, rs, 0, n, m);
    b.Consume(m);
  }

  method ClearPrepared(b: ByteBuffer, rs: (Region, Region), n: nat)
    requires b.Valid() && b.Follows(rs, n) && n > 0
    modifies b`readIndex, b`size
    ensures b.Valid() && b.Contents() == []
    ensures b.Follows(rs, n) <==> old(b.size) == 0 || old(b.WriteIndex()) == 0
  {
    if b.size > 0 { ConsumeKeepsRegions(b.storage.Length, b.readIndex, b.size, rs, 0, n, b.size); }
    b.Clear();
  }

  /** Regions that follow the contents share no cell with each other or with the contents. */
  lemma FollowingIsDisjoint(b: ByteBuffer, rs: (Region, Region), n: nat, i: nat, j: nat, k: nat)
    requires b.Valid() && b.Follows(rs, n) && i < n && j < n && i != j && k < b.size
    ensures Cell(rs, i) != Cell(rs, j)
    ensures Cell(rs, i) != Cell(b.ReadableRegions(), k)
  {
    assert Cell(rs, i) == At(b.storage.Length, b.readIndex, b.size + (i - 0));
    assert Cell(rs, j) == At(b.storage.Length, b.readIndex, b.size + (j - 0));
    Injective(b.storage.Length, b.readIndex, b.size + i, k);
  }

  // ---- clients ----

  /** What a client has been promised: of each readable byte and of each uncommitted prepared cell, its
      value, or nothing. */
  datatype Client = Client(
    capacity: nat,
    contents: seq<Option<Byte>>,
    staged: seq<Option<Byte>>,     // the uncommitted cells of the prepared regions; none if they are lost
    n: nat,                        // how many bytes were prepared last
    done: nat,                     // how many were committed since
    lost: bool)                    // the buffer was emptied while prepared cells were uncommitted

  datatype Op =
    | Prepare(n: nat, contiguous: bool)
    | Write(at: nat, bytes: seq<Byte>)   // through the prepared regions, from their at-th cell on
    | Commit(k: nat)
    | Consume(m: nat)
    | Clear

  function Nothing(n: nat): (r: seq<Option<Byte>>)
    ensures |r| == n && forall i :: 0 <= i < n ==> r[i] == None
  {
    seq(n, _ => None)
  }

  function Known(bytes: seq<Byte>): (r: seq<Option<Byte>>)
    ensures |r| == |bytes| && forall i :: 0 <= i < |bytes| ==> r[i] == Some(bytes[i])
  {
    seq(|bytes|, i requires 0 <= i < |bytes| => Some(bytes[i]))
  }

  /** What the source asserts, and that a client writes only cells it has not committed. */
  predicate Legal(c: Client, op: Op) {
    match op
    case Prepare(_, _) => |c.contents| <= c.capacity && c.capacity > 0
    case Write(at, bytes) => c.done <= at && at + |bytes| <= c.n
    case Commit(k) => |c.contents| + k <= c.capacity
    case Consume(m) => m <= |c.contents|
    case Clear => true
  }

  function Prepared(c: Client, op: Op): nat
    requires op.Prepare? && Legal(c, op)
  {
    if op.n == SIZE_MAX && !op.contiguous then c.capacity - |c.contents| else op.n
  }

  /** The buffer is emptied: nothing more is promised of prepared cells. */
  function Emptied(c: Client): Client {
    if c.contents != [] && c.done < c.n then c.(contents := [], staged := [], lost := true) else c.(contents := [])
  }

  function Effect(c: Client, op: Op): Client
    requires Legal(c, op)
  {
    match op
    case Prepare(_, _) =>
      var n := Prepared(c, op);
      Client(Doubled(c.capacity, |c.contents| + n), c.contents, Nothing(n), n, 0, false)
    case Write(at, bytes) =>
      var i := at - c.done;
      if i + |bytes| <= |c.staged| then c.(staged := c.staged[..i] + Known(bytes) + c.staged[i + |bytes|..]) else c
    case Commit(k) =>
      var known := if k < |c.staged| then k else |c.staged|;
      c.(contents := c.contents + c.staged[..known] + Nothing(k - known), staged := c.staged[known..], done := c.done + k)
    case Consume(m) => if m == |c.contents| then Emptied(c) else c.(contents := c.contents[m..])
    case Clear => Emptied(c)
  }

  predicate AllLegal(c: Client, ops: seq<Op>)
    decreases |ops|
  {
    ops == [] || (Legal(c, ops[0]) && AllLegal(Effect(c, ops[0]), ops[1..]))
  }

  function Effects(c: Client, ops: seq<Op>): Client
    requires AllLegal(c, ops)
    decreases |ops|
  {
    if ops == [] then c else Effects(Effect(c, ops[0]), ops[1..])
  }

  // ---- the buffer keeps every promise ----

  ghost predicate ContentsKept(b: ByteBuffer, c: Client)
    requires b.Valid()
    reads b, b.storage
  {
    && |c.contents| == b.size && c.capacity == b.storage.Length
    && forall i :: 0 <= i < b.size && c.contents[i].Some? ==> b.Contents()[i] == c.contents[i].value
  }

  ghost predicate StagedKept(b: ByteBuffer, rs: (Region, Region), c: Client)
    requires b.Valid() && Inside(rs.0, b.storage.Length) && Inside(rs.1, b.storage.Length)
    requires rs.0.length + rs.1.length == c.n
    reads b, b.storage
  {
    if c.lost then c.staged == [] && forall i :: 0 <= i < |c.contents| ==> c.contents[i] == None
    else if c.done >= c.n then c.staged == []
    else
      && |c.staged| == c.n - c.done
      && Tracks(b.storage.Length, b.readIndex, b.size, rs, c.done, c.n)
      && forall j :: 0 <= j < |c.staged| && c.staged[j].Some? ==> b.storage[Cell(rs, c.done + j)] == c.staged[j].value
  }

  ghost predicate Keeps(b: ByteBuffer, rs: (Region, Region), c: Client)
    reads b, b.storage
  {
    && b.Valid()
    && Inside(rs.0, b.storage.Length) && Inside(rs.1, b.storage.Length) && rs.0.length + rs.1.length == c.n
    && ContentsKept(b, c) && StagedKept(b, rs, c)
  }

  method DoPrepare(b: ByteBuffer, rs: (Region, Region), op: Op, ghost c: Client) returns (rs': (Region, Region))
    requires op.Prepare? && Keeps(b, rs, c) && Legal(c, op)
    modifies b, b.storage
    ensures Keeps(b, rs', Effect(c, op)) && (b.storage == old(b.storage) || fresh(b.storage))
  {
    if op.contiguous {
      var r := b.PrepareContiguous(op.n);
      rs' := (r, EMPTY);
    } else {
      rs' := b.WritableRegions(op.n);
    }
  }

  /** Bytes are written through prepared regions. While the regions follow the contents, the contents keep
      their value, and so do the other cells. */
  method Put(b: ByteBuffer, rs: (Region, Region), ghost done: nat, ghost n: nat, at: nat, bytes: seq<Byte>)
    requires b.Valid() && Inside(rs.0, b.storage.Length) && Inside(rs.1, b.storage.Length)
    requires rs.0.length + rs.1.length == n && done <= at && at + |bytes| <= n
    modifies b.storage
    ensures Tracks(b.storage.Length, b.readIndex, b.size, rs, done, n) ==>
      && b.Contents() == old(b.Contents())
      && forall i :: done <= i < n ==>
           b.storage[Cell(rs, i)] == if at <= i < at + |bytes| then bytes[i - at] else old(b.storage[Cell(rs, i)])
  {
    ghost var tracks := Tracks(b.storage.Length, b.readIndex, b.size, rs, done, n);
    for i := 0 to |bytes|
      invariant tracks ==> b.Contents() == old(b.Contents())
      invariant tracks ==> forall j :: done <= j < n ==>
        b.storage[Cell(rs, j)] == if at <= j < at + i then bytes[j - at] else old(b.storage[Cell(rs, j)])
    {
      b.storage[Cell(rs, at + i)] := bytes[i];
    }
  }

  /** What is promised of the j-th staged cell after a write. */
  function Staged(c: Client, at: nat, bytes: seq<Byte>, j: nat): Option<Byte>
    requires j < |c.staged|
  {
    if at <= c.done + j < at + |bytes| then Some(bytes[c.done + j - at]) else c.staged[j]
  }

  lemma WriteEffect(c: Client, at: nat, bytes: seq<Byte>)
    requires Legal(c, Write(at, bytes)) && |c.staged| == c.n - c.done
    ensures var c' := Effect(c, Write(at, bytes));
      && c' == c.(staged := c'.staged) && |c'.staged| == |c.staged|
      && forall j :: 0 <= j < |c.staged| ==> c'.staged[j] == Staged(c, at, bytes, j)
  {}

  lemma WriteNoEffect(c: Client, at: nat, bytes: seq<Byte>)
    requires Legal(c, Write(at, bytes)) && c.staged == []
    ensures Effect(c, Write(at, bytes)) == c
  {}

  /** After the write, while the regions follow the contents. */
  lemma StagedWritten(b: ByteBuffer, rs: (Region, Region), c: Client, at: nat, bytes: seq<Byte>)
    requires b.Valid() && Legal(c, Write(at, bytes)) && ContentsKept(b, c)
    requires !c.lost && c.done < c.n && |c.staged| == c.n - c.done
    requires Tracks(b.storage.Length, b.readIndex, b.size, rs, c.done, c.n)
    requires forall j :: 0 <= j < |c.staged| && Staged(c, at, bytes, j).Some? ==>
      b.storage[Cell(rs, c.done + j)] == Staged(c, at, bytes, j).value
    ensures Keeps(b, rs, Effect(c, Write(at, bytes)))
  {
    WriteEffect(c, at, bytes);
  }

  method DoWrite(b: ByteBuffer, rs: (Region, Region), at: nat, bytes: seq<Byte>, ghost c: Client)
    requires Keeps(b, rs, c) && Legal(c, Write(at, bytes))
    modifies b.storage
    ensures Keeps(b, rs, Effect(c, Write(at, bytes)))
  {
    ghost var contents := b.Contents();
    Put(b, rs, c.done, c.n, at, bytes);
    if !c.lost && c.done < c.n {
      assert b.Contents() == contents && ContentsKept(b, c);
      StagedWritten(b, rs, c, at, bytes);
    } else {
      WriteNoEffect(c, at, bytes);
    }
  }

  function Least(a: nat, b: nat): nat { if a < b then a else b }

  /** The cells that a commit adds hold what is promised of the staged ones. */
  lemma NextAreStaged(b: ByteBuffer, rs: (Region, Region), c: Client, k: nat)
    requires Keeps(b, rs, c) && b.size + k <= b.storage.Length
    ensures forall i :: 0 <= i < Least(k, |c.staged|) && c.staged[i].Some? ==> b.Next(k)[i] == c.staged[i].value
  {
    forall i | 0 <= i < Least(k, |c.staged|) && c.staged[i].Some? ensures b.Next(k)[i] == c.staged[i].value {
      var j := c.done + i;
      assert b.storage[Cell(rs, j)] == c.staged[i].value;
      assert Cell(rs, j) == At(b.storage.Length, b.readIndex, b.size + (j - c.done));
    }
  }

  lemma ContentsAfterCommit(contents: seq<Byte>, next: seq<Byte>, c: Client, k: nat)
    requires |contents| == |c.contents| && |next| == k && |contents| + k <= c.capacity
    requires forall i :: 0 <= i < |contents| && c.contents[i].Some? ==> contents[i] == c.contents[i].value
    requires forall i :: 0 <= i < Least(k, |c.staged|) && c.staged[i].Some? ==> next[i] == c.staged[i].value
    ensures var c' := Effect(c, Commit(k));
      && |c'.contents| == |contents| + k
      && forall i :: 0 <= i < |contents| + k && c'.contents[i].Some? ==> (contents + next)[i] == c'.contents[i].value
  {}

  /** Once k more bytes are readable. */
  lemma StagedCommitted(b: ByteBuffer, rs: (Region, Region), c: Client, k: nat)
    requires b.Valid() && k <= b.size && |c.contents| == b.size - k && Legal(c, Commit(k)) && c.capacity == b.storage.Length
    requires !c.lost && c.done + k < c.n && |c.staged| == c.n - c.done
    requires Tracks(b.storage.Length, b.readIndex, b.size, rs, c.done + k, c.n)
    requires forall j :: 0 <= j < |c.staged| && c.staged[j].Some? ==> b.storage[Cell(rs, c.done + j)] == c.staged[j].value
    ensures StagedKept(b, rs, Effect(c, Commit(k)))
  {
    var c' := Effect(c, Commit(k));
    forall j | 0 <= j < |c'.staged| && c'.staged[j].Some?
      ensures b.storage[Cell(rs, c'.done + j)] == c'.staged[j].value
    {
      assert c'.staged[j] == c.staged[k + j];
      assert b.storage[Cell(rs, c.done + (k + j))] == c.staged[k + j].value;
    }
  }

  /** The commit itself, and what it does to the contents. */
  method CommitContents(b: ByteBuffer, rs: (Region, Region), k: nat, ghost c: Client)
    requires Keeps(b, rs, c) && Legal(c, Commit(k))
    modifies b`size
    ensures b.Valid() && b.size == old(b.size) + k && ContentsKept(b, Effect(c, Commit(k)))
  {
    NextAreStaged(b, rs, c, k);
    ContentsAfterCommit(b.Contents(), b.Next(k), c, k);
    b.Commit(k);
  }

  method DoCommit(b: ByteBuffer, rs: (Region, Region), k: nat, ghost c: Client)
    requires Keeps(b, rs, c) && Legal(c, Commit(k))
    modifies b`size
    ensures Keeps(b, rs, Effect(c, Commit(k)))
  {
    ghost var follows := !c.lost && c.done + k < c.n;
    if follows { CommitKeepsRegions(b.storage.Length, b.readIndex, b.size, rs, c.done, c.n, k); }
    CommitContents(b, rs, k, c);
    if follows { StagedCommitted(b, rs, c, k); }
  }

  lemma ContentsAfterConsume(contents: seq<Byte>, c: Client, m: nat)
    requires |contents| == |c.contents| && Legal(c, Consume(m))
    requires forall i :: 0 <= i < |contents| && c.contents[i].Some? ==> contents[i] == c.contents[i].value
    ensures var c' := Effect(c, Consume(m));
      && c'.contents == c.contents[m..] && c'.capacity == c.capacity && c'.n == c.n && c'.done == c.done
      && (m < |contents| || c.contents == [] || c.done >= c.n ==> c'.staged == c.staged && c'.lost == c.lost)
      && (m == |contents| > 0 && c.done < c.n ==> c'.staged == [] && c'.lost)
      && forall i :: 0 <= i < |contents| - m && c'.contents[i].Some? ==> contents[m..][i] == c'.contents[i].value
  {}

  method DoConsume(b: ByteBuffer, rs: (Region, Region), m: nat, ghost c: Client)
    requires Keeps(b, rs, c) && Legal(c, Consume(m))
    modifies b`readIndex, b`size
    ensures Keeps(b, rs, Effect(c, Consume(m)))
  {
    ContentsAfterConsume(b.Contents(), c, m);
    if 0 < m < b.size && c.done < c.n && !c.lost {
      ConsumeKeepsRegions(b.storage.Length, b.readIndex, b.size, rs, c.done, c.n, m);
    }
    b.Consume(m);
  }

  method DoClear(b: ByteBuffer, rs: (Region, Region), ghost c: Client)
    requires Keeps(b, rs, c)
    modifies b`readIndex, b`size
    ensures Keeps(b, rs, Effect(c, Clear))
  {
    b.Clear();
  }

  method Do(b: ByteBuffer, rs: (Region, Region), op: Op, ghost c: Client) returns (rs': (Region, Region))
    requires Keeps(b, rs, c) && Legal(c, op)
    modifies b, b.storage
    ensures Keeps(b, rs', Effect(c, op)) && (b.storage == old(b.storage) || fresh(b.storage))
  {
    rs' := rs;
    match op
    case Prepare(_, _) => rs' := DoPrepare(b, rs, op, c);
    case Write(at, bytes) => DoWrite(b, rs, at, bytes, c);
    case Commit(k) => DoCommit(b, rs, k, c);
    case Consume(m) => DoConsume(b, rs, m, c);
    case Clear => DoClear(b, rs, c);
  }

  /** Nothing is prepared, and the contents are known. */
  ghost function Start(b: ByteBuffer): Client
    requires b.Valid()
    reads b, b.storage
  {
    Client(b.storage.Length, Known(b.Contents()), [], 0, 0, false)
  }

  /** Over every sequence of operations that the source allows, in any order, the buffer keeps what the
      client has been promised. */
  method Replay(b: ByteBuffer, ops: seq<Op>) returns (rs: (Region, Region))
    requires b.Valid() && AllLegal(Start(b), ops)
    modifies b, b.storage
    ensures Keeps(b, rs, Effects(old(Start(b)), ops)) && (b.storage == old(b.storage) || fresh(b.storage))
  {
    rs := (EMPTY, EMPTY);
    ghost var c := Start(b);
    var i := 0;
    while i < |ops|
      invariant 0 <= i <= |ops| && (b.storage == old(b.storage) || fresh(b.storage))
      invariant Keeps(b, rs, c) && AllLegal(c, ops[i..])
      invariant Effects(c, ops[i..]) == Effects(old(Start(b)), ops)
    {
      assert ops[i..][1..] == ops[i + 1..];
      rs := Do(b, rs, ops[i], c);
      c := Effect(c, ops[i]);
      i := i + 1;
    }
  }

  // ---- when the buffer is a plain byte sequence ----

  predicate AllKnown(s: seq<Option<Byte>>) { forall i :: 0 <= i < |s| ==> s[i].Some? }

  function Values(s: seq<Option<Byte>>): (r: seq<Byte>)
    requires AllKnown(s)
    ensures |r| == |s| && forall i :: 0 <= i < |s| ==> s[i] == Some(r[i])
  {
    seq(|s|, i requires 0 <= i < |s| => s[i].value)
  }

  /** Only bytes that were written, through regions that have not been lost, are committed. */
  predicate Careful(c: Client, op: Op) {
    op.Commit? ==> op.k <= |c.staged| && AllKnown(c.staged[..op.k])
  }

  predicate AllCareful(c: Client, ops: seq<Op>)
    requires AllLegal(c, ops)
    decreases |ops|
  {
    ops == [] || (Careful(c, ops[0]) && AllCareful(Effect(c, ops[0]), ops[1..]))
  }

  /** A careful client knows every readable byte: commit appends what was written, consume drops a
      prefix, and nothing else changes the contents. */
  lemma {:induction false} CarefulKnowsAll(c: Client, ops: seq<Op>)
    requires AllLegal(c, ops) && AllCareful(c, ops) && AllKnown(c.contents)
    ensures AllKnown(Effects(c, ops).contents)
    decreases |ops|
  {
    if ops != [] { CarefulKnowsAll(Effect(c, ops[0]), ops[1..]); }
  }

  lemma CarefulEffect(c: Client, op: Op)
    requires Legal(c, op) && Careful(c, op) && AllKnown(c.contents)
    ensures AllKnown(Effect(c, op).contents)
    ensures var before, after := Values(c.contents), Values(Effect(c, op).contents);
      match op
      case Prepare(_, _) => after == before
      case Write(_, _) => after == before
      case Commit(k) => after == before + Values(c.staged[..k])
      case Consume(m) => after == before[m..]
      case Clear => after == []
  {}

  /** For a careful client the buffer is a plain byte sequence, however often it wraps and grows. */
  method ReplayCareful(b: ByteBuffer, ops: seq<Op>) returns (rs: (Region, Region))
    requires b.Valid() && AllLegal(Start(b), ops) && AllCareful(Start(b), ops)
    modifies b, b.storage
    ensures b.Valid() && AllKnown(Effects(old(Start(b)), ops).contents)
    ensures b.Contents() == Values(Effects(old(Start(b)), ops).contents)
  {
    CarefulKnowsAll(Start(b), ops);
    rs := Replay(b, ops);
  }

  // ---- a client that is not careful ----

  /** Bytes are written into prepared regions, the contents are consumed, and as many bytes as were written
      are committed. From a buffer that starts at its first cell, what becomes readable is not what was
      written, but what was consumed already. */
  method EmptiedInBetween(b: ByteBuffer, x: seq<Byte>)
    requires b.Valid() && b.readIndex == 0 && 0 < |x| <= b.size && |x| <= b.WritableBytes() && |x| < SIZE_MAX
    modifies b, b.storage
    ensures b.Valid() && b.Contents() == old(b.Contents())[..|x|]
  {
    var n := b.size;
    var rs := b.WritableRegions(|x|);
    Put(b, rs, 0, |x|, 0, x);
    assert forall i :: 0 <= i < n ==> b.storage[i] == b.Contents()[i];
    b.Consume(n);
    b.Commit(|x|);
  }

  /** Two bytes at cells 0 and 1 of 8, two more written and lost. */
  method WrittenBytesLost(a: seq<Byte>, x: seq<Byte>) returns (b: ByteBuffer)
    requires |a| == 2 && |x| == 2
    ensures fresh(b) && b.Valid() && b.Contents() == a
  {
    b := new ByteBuffer(8);
    var rs := b.WritableRegions(2);
    Put(b, rs, 0, 2, 0, a);
    assert Cell(rs, 0) == 0 && Cell(rs, 1) == 1;
    b.Commit(2);
    assert b.Contents() == a;
    EmptiedInBetween(b, x);
  }

  /** The promises say so: nothing is known of what that client has committed. */
  lemma WrittenBytesNotPromised(c: Client, x: seq<Byte>)
    requires c.capacity >= 4 && |c.contents| == 2 && |x| == 2 && c.done == c.n
    ensures var ops := [Prepare(2, false), Write(0, x), Consume(2), Commit(2)];
      AllLegal(c, ops) && Effects(c, ops).contents == [None, None] && Effects(c, ops).lost
  {
    var c1 := Effect(c, Prepare(2, false));
    var c2 := Effect(c1, Write(0, x));
    var c3 := Effect(c2, Consume(2));
    var c4 := Effect(c3, Commit(2));
    assert c4.contents == [None, None];
    var ops := [Prepare(2, false), Write(0, x), Consume(2), Commit(2)];
    assert ops[1..] == [Write(0, x), Consume(2), Commit(2)];
    assert ops[1..][1..] == [Consume(2), Commit(2)];
    assert ops[1..][1..][1..] == [Commit(2)];
    assert ops[1..][1..][1..][1..] == [];
    assert AllLegal(c4, []) && AllLegal(c3, [Commit(2)]) && AllLegal(c2, [Consume(2), Commit(2)]);
    assert AllLegal(c1, ops[1..]);
    assert Effects(c3, [Commit(2)]) == c4;
    assert Effects(c2, [Consume(2), Commit(2)]) == c4;
    assert Effects(c1, ops[1..]) == c4;
  }
}
