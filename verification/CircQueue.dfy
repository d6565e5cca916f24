/** The ring producer queue: chunks of one double-mapped buffer handed out in turn, taken
    back in any order, and acknowledged in index order. */
module CircQueue {
  import opened Results
  import opened Memory

  /** len: bytes of the ring. chunk: bytes of one buffer. write, last: positions from the
      ring's start. available: indices in the order they will be handed out. */
  datatype Circ = Circ(
    len: nat, chunk: nat, write: nat, last: Option<nat>, avail: nat, ack: nat,
    available: seq<nat>, returned: seq<bool>, outgone: seq<nat>)
  {
    function Count(): nat { |outgone| }

    /** Chunks not available: handed out, or back but not acknowledged. */
    function Out(): int { Count() - |available| }

    predicate Empty() { avail == 0 || available == [] }
  }

  /** The t-th index after ack, around the ring of n. */
  function Index(ack: nat, t: nat, n: nat): nat {
    if ack + t < n then ack + t else if ack + t >= n && ack + t - n < n then ack + t - n else 0
  }

  /** How far index i is ahead of ack. */
  function Rank(ack: nat, i: nat, n: nat): nat {
    if i >= ack then i - ack else if i + n >= ack then i + n - ack else 0
  }

  /** Bytes that went out with the t chunks from ack on. */
  function OutBytes(outgone: seq<nat>, ack: nat, t: nat): nat
    requires ack < |outgone| && t <= |outgone|
  {
    if t == 0 then 0 else OutBytes(outgone, ack, t - 1) + outgone[Index(ack, t - 1, |outgone|)]
  }

  // ---------------------------------------------------------------- operations

  function Popped(c: Circ, n: nat): Circ
    requires c.available != [] && c.available[0] < c.Count() && n <= c.avail
  {
    var w := c.write + n;
    c.(outgone := c.outgone[c.available[0] := n],
       available := c.available[1..],
       last := Some(w),
       write := if w > c.len then w - c.len else w,
       avail := c.avail - n)
  }

  function Waiting(returned: seq<bool>): set<nat> {
    set i | 0 <= i < |returned| && returned[i]
  }

  function AckOne(c: Circ): Circ
    requires |c.returned| == c.Count() && c.ack < c.Count()
  {
    c.(avail := c.avail + c.outgone[c.ack],
       available := c.available + [c.ack],
       returned := c.returned[c.ack := false],
       ack := if c.ack + 1 == c.Count() then 0 else c.ack + 1)
  }

  function Acked(c: Circ): (r: Circ)
    requires |c.returned| == c.Count() && c.ack < c.Count()
    ensures |r.returned| == r.Count() == c.Count() && r.ack < r.Count()
    decreases Waiting(c.returned)
  {
    if c.returned[c.ack] then
      assert c.ack in Waiting(c.returned) && c.ack !in Waiting(AckOne(c).returned);
      Acked(AckOne(c))
    else c
  }

  /** A returned buffer with this queue's token; others are not kept. */
  function Returned(c: Circ, i: nat, mine: bool): Circ
    requires |c.returned| == c.Count() && c.ack < c.Count() && i < c.Count()
  {
    if mine then Acked(c.(returned := c.returned[i := true])) else c
  }

  // ---------------------------------------------------------------- invariant

  /** base: stream position of the oldest unacknowledged byte. The chunks out form the run
      from ack, their bytes are exactly what is missing from avail, and the available ones
      form the rest of the cycle. */
  ghost predicate RingOk(c: Circ, base: nat) {
    && Shape(c)
    && c.avail + OutBytes(c.outgone, c.ack, c.Out()) == c.len
    && c.write <= c.len && c.write % c.len == Written(c, base) % c.len
    && (c.last != None ==> c.last.value % c.len == Written(c, base) % c.len)
  }

  ghost predicate Shape(c: Circ) {
    && 0 < c.Count() && 0 < c.len && c.Count() * c.chunk <= c.len
    && |c.returned| == c.Count() && c.ack < c.Count() && |c.available| <= c.Count()
    && (forall j :: 0 <= j < |c.available| ==> c.available[j] == Index(c.ack, c.Out() + j, c.Count()))
    && (forall i :: 0 <= i < c.Count() && c.returned[i] ==> Rank(c.ack, i, c.Count()) < c.Out())
    && (forall i :: 0 <= i < c.Count() ==> c.outgone[i] <= c.chunk)
  }

  /** Every acknowledgement that could be made has been made. */
  ghost predicate Settled(c: Circ) {
    c.ack < |c.returned| && !c.returned[c.ack]
  }

  /** Chunk i is handed out and not back. */
  predicate Held(c: Circ, i: nat) {
    && i < |c.returned| == c.Count() && !c.returned[i]
    && Rank(c.ack, i, c.Count()) < c.Out()
  }

  /** Stream position after the last byte written. */
  function Written(c: Circ, base: nat): int {
    base + c.len - c.avail
  }

  /** Stream position where the bytes of chunk i begin. */
  function Root(c: Circ, base: nat, i: nat): nat
    requires c.ack < c.Count() && i < c.Count()
  {
    base + OutBytes(c.outgone, c.ack, Rank(c.ack, i, c.Count()))
  }

  // ---------------------------------------------------------------- sums around the ring

  lemma {:induction false} OutBytesFrame(outgone: seq<nat>, ack: nat, t: nat, i: nat, n: nat)
    requires ack < |outgone| && t <= |outgone| && i < |outgone|
    requires Rank(ack, i, |outgone|) >= t
    ensures OutBytes(outgone[i := n], ack, t) == OutBytes(outgone, ack, t)
  {
    if t > 0 { OutBytesFrame(outgone, ack, t - 1, i, n); }
  }

  lemma {:induction false} OutBytesBound(outgone: seq<nat>, ack: nat, t: nat, chunk: nat)
    requires ack < |outgone| && t <= |outgone|
    requires forall i :: 0 <= i < |outgone| ==> outgone[i] <= chunk
    ensures OutBytes(outgone, ack, t) <= t * chunk
  {
    if t > 0 {
      OutBytesBound(outgone, ack, t - 1, chunk);
      assert t * chunk == (t - 1) * chunk + chunk;
    }
  }

  lemma {:induction false} OutBytesShift(outgone: seq<nat>, ack: nat, t: nat)
    requires ack < |outgone| && 1 <= t <= |outgone|
    ensures OutBytes(outgone, ack, t) == outgone[ack] + OutBytes(outgone, Index(ack, 1, |outgone|), t - 1)
  {
    if t > 1 {
      OutBytesShift(outgone, ack, t - 1);
    } else {
      assert OutBytes(outgone, ack, 0) == 0;
    }
  }

  lemma {:induction false} OutBytesMonotone(outgone: seq<nat>, ack: nat, t: nat, u: nat)
    requires ack < |outgone| && t <= u <= |outgone|
    ensures OutBytes(outgone, ack, t) <= OutBytes(outgone, ack, u)
    decreases u
  {
    if t < u { OutBytesMonotone(outgone, ack, t, u - 1); }
  }

  // ---------------------------------------------------------------- accounting

  /** While some chunk is available there is room for a whole one, and it fits in the double
      mapping from the write pointer. */
  lemma RoomForFront(c: Circ, base: nat)
    requires RingOk(c, base) && c.available != []
    ensures c.avail >= c.chunk && c.write + c.chunk <= 2 * c.len
    ensures c.chunk > 0 ==> !c.Empty()
  {
    OutBytesBound(c.outgone, c.ack, c.Out(), c.chunk);
    ChunksLeft(c.Count(), c.Out(), c.chunk);
    ChunksLeft(c.Count(), 0, c.chunk);
  }

  lemma ChunksLeft(n: nat, k: nat, chunk: nat)
    requires k < n
    ensures n * chunk >= k * chunk + chunk
  {
    assert n * chunk == (n - k) * chunk + k * chunk;
    if chunk > 0 { MulAtLeast(n - k, chunk); }
  }

  /** Handing out n bytes: the assertion on available bytes holds, and the accounting
      moves on by n. */
  lemma PopKeeps(c: Circ, base: nat, n: nat)
    requires RingOk(c, base) && c.available != [] && n <= c.chunk
    ensures c.available[0] < c.Count() && n <= c.avail && RingOk(Popped(c, n), base)
    ensures Written(Popped(c, n), base) == Written(c, base) + n
    ensures Settled(c) ==> Settled(Popped(c, n))
  {
    RoomForFront(c, base);
    var d, k := Popped(c, n), c.Out();
    var i := c.available[0];
    assert i == Index(c.ack, k, c.Count()) && Rank(c.ack, i, c.Count()) == k;
    OutBytesFrame(c.outgone, c.ack, k, i, n);
    assert OutBytes(d.outgone, d.ack, d.Out()) == OutBytes(c.outgone, c.ack, k) + n;
    ModShift(c.write, Written(c, base), n, c.len);
    if c.write + n > c.len { ModPeriod(d.write, 1, c.len); }
    forall j | 0 <= j < |d.available|
      ensures d.available[j] == Index(d.ack, d.Out() + j, d.Count())
    {
      assert d.available[j] == c.available[j + 1];
    }
  }

  /** Roots of chunks already out do not move when another is handed out, and the new one
      begins at the old end of the written stream. */
  lemma PopRoots(c: Circ, base: nat, n: nat, i: nat)
    requires RingOk(c, base) && c.available != [] && n <= c.chunk && n <= c.avail
    requires i < c.Count() && Rank(c.ack, i, c.Count()) <= c.Out()
    ensures Root(Popped(c, n), base, i) == if i == c.available[0] then Written(c, base) else Root(c, base, i)
  {
    var a := c.available[0];
    assert a == Index(c.ack, c.Out(), c.Count());
    OutBytesFrame(c.outgone, c.ack, Rank(c.ack, i, c.Count()), a, n);
  }

  lemma AckOneKeeps(c: Circ, base: nat)
    requires RingOk(c, base) && c.returned[c.ack]
    ensures RingOk(AckOne(c), base + c.outgone[c.ack])
    ensures Written(AckOne(c), base + c.outgone[c.ack]) == Written(c, base)
  {
    var d, n := AckOne(c), c.Count();
    assert Rank(c.ack, c.ack, n) == 0;
    OutBytesShift(c.outgone, c.ack, c.Out());
    forall j | 0 <= j < |d.available|
      ensures d.available[j] == Index(d.ack, d.Out() + j, n)
    {
      if j < |c.available| { assert d.available[j] == c.available[j]; }
    }
    forall i | 0 <= i < n && d.returned[i]
      ensures Rank(d.ack, i, n) < d.Out()
    {
      assert c.returned[i];
    }
  }

  lemma AckOneRoots(c: Circ, base: nat, i: nat)
    requires RingOk(c, base) && c.returned[c.ack]
    requires i < c.Count() && i != c.ack && Rank(c.ack, i, c.Count()) < c.Out()
    ensures Rank(AckOne(c).ack, i, c.Count()) < AckOne(c).Out()
    ensures Root(AckOne(c), base + c.outgone[c.ack], i) == Root(c, base, i)
  {
    OutBytesShift(c.outgone, c.ack, Rank(c.ack, i, c.Count()));
  }

  /** Bytes acknowledged by the ack loop. */
  function AckedBytes(c: Circ): nat
    requires |c.returned| == c.Count() && c.ack < c.Count()
    decreases Waiting(c.returned)
  {
    if c.returned[c.ack] then
      assert c.ack in Waiting(c.returned) && c.ack !in Waiting(AckOne(c).returned);
      c.outgone[c.ack] + AckedBytes(AckOne(c))
    else 0
  }

  /** The ack loop keeps the accounting, whatever the order of returns, and loses no
      written byte. */
  lemma {:induction false} AckKeeps(c: Circ, base: nat)
    requires RingOk(c, base)
    ensures RingOk(Acked(c), base + AckedBytes(c)) && Settled(Acked(c))
    ensures Written(Acked(c), base + AckedBytes(c)) == Written(c, base)
    ensures Acked(c).Count() == c.Count() && Acked(c).len == c.len && Acked(c).chunk == c.chunk
    ensures Acked(c).write == c.write && Acked(c).last == c.last
    decreases Waiting(c.returned)
  {
    if c.returned[c.ack] {
      var d := AckOne(c);
      assert c.ack in Waiting(c.returned) && c.ack !in Waiting(d.returned);
      AckOneKeeps(c, base);
      hide RingOk;
      hide Index;
      hide Written;
      AckKeeps(d, base + c.outgone[c.ack]);
    }
  }

  /** No acknowledgement moves a chunk that is still held, or takes it back. */
  lemma {:induction false} AckRoots(c: Circ, base: nat, i: nat)
    requires RingOk(c, base) && Held(c, i)
    ensures Held(Acked(c), i)
    ensures Root(Acked(c), base + AckedBytes(c), i) == Root(c, base, i)
    decreases Waiting(c.returned)
  {
    if c.returned[c.ack] {
      var d := AckOne(c);
      assert c.ack in Waiting(c.returned) && c.ack !in Waiting(d.returned);
      AckOneKeeps(c, base);
      AckOneRoots(c, base, i);
      hide RingOk;
      hide Index;
      hide OutBytes;
      AckRoots(d, base + c.outgone[c.ack], i);
    }
  }

  lemma AckUnfold(c: Circ)
    requires |c.returned| == c.Count() && c.ack < c.Count()
    ensures Acked(c) == if c.returned[c.ack] then Acked(AckOne(c)) else c
  {
  }

  /** A return marks the chunk and acknowledges every chunk it completes the run for. */
  lemma ReturnKeeps(c: Circ, base: nat, i: nat)
    requires RingOk(c, base) && Held(c, i)
    ensures var c1 := c.(returned := c.returned[i := true]);
            && RingOk(c1, base) && |c1.returned| == c1.Count() && c1.ack < c1.Count()
            && RingOk(Returned(c, i, true), base + AckedBytes(c1)) && Settled(Returned(c, i, true))
            && Written(Returned(c, i, true), base + AckedBytes(c1)) == Written(c, base)
            && Returned(c, i, true).Count() == c.Count() && Returned(c, i, true).len == c.len
            && Returned(c, i, true).last == c.last
  {
    var c1 := c.(returned := c.returned[i := true]);
    assert RingOk(c1, base) && Written(c1, base) == Written(c, base);
    AckKeeps(c1, base);
    hide RingOk;
    hide Acked;
    hide AckedBytes;
    hide Rank;
  }
}

/** BufferQueueCirc: the same, as the object the source updates in place. */
module CircBuffer {
  import opened Results
  import opened CircQueue

  datatype Chunk = Chunk(index: nat, write: nat, last: Option<nat>)

  class BufferQueueCirc {
    var len: nat
    var chunk: nat
    var writePtr: nat
    var lastPtr: Option<nat>
    var bytesAvail: nat
    var ackIndex: nat
    var availableBuffers: seq<nat>
    var returnedBuffers: seq<bool>
    var outgoneBytes: seq<nat>
    ghost var acked: nat

    function State(): Circ
      reads this
    {
      Circ(len, chunk, writePtr, lastPtr, bytesAvail, ackIndex, availableBuffers, returnedBuffers, outgoneBytes)
    }

    ghost predicate Valid()
      reads this
    {
      RingOk(State(), acked) && Settled(State())
    }

    /** actual: the ring's length, the wanted bytes rounded up to whole pages. The chunks
        reach the queue later, each by its own return. */
    constructor (length: nat, num: nat, actual: nat)
      requires 0 < num && num * length <= actual && 0 < actual
      ensures Valid() && acked == 0 && availableBuffers == [] && bytesAvail == len == actual
      ensures chunk == length && writePtr == 0 && lastPtr == None && ackIndex == 0
      ensures returnedBuffers == seq(num, _ => false) && outgoneBytes == seq(num, _ => 0)
      ensures forall i :: 0 <= i < num ==> Held(State(), i)
    {
      len, chunk, writePtr, lastPtr := actual, length, 0, None;
      bytesAvail, ackIndex, availableBuffers := actual, 0, [];
      returnedBuffers, outgoneBytes := seq(num, _ => false), seq(num, _ => 0);
      acked := 0;
      new;
      NothingOut(outgoneBytes, num);
    }

    /** The chunk to write next, at the write pointer. */
    method Front() returns (r: Outcome<Chunk>)
      requires Valid()
      ensures r.Ok? <==> !State().Empty()
      ensures r.Ok? ==> r.value == Chunk(availableBuffers[0], writePtr, lastPtr) && writePtr + chunk <= 2 * len
    {
      if bytesAvail == 0 || availableBuffers == [] { return AssertFailed; }
      RoomForFront(State(), acked);
      return Ok(Chunk(availableBuffers[0], writePtr, lastPtr));
    }

    /** Hand out the front chunk, of which offset bytes were written and length not yet
        posted. Fails where the source's assertions do, changing nothing. */
    method Pop(offset: nat, length: nat) returns (ok: bool)
      requires Valid() && offset <= chunk
      modifies this
      ensures Valid() && acked == old(acked)
      ensures ok <==> !old(State()).Empty() && length == 0
      ensures ok ==> old(State()).available[0] < old(State()).Count() && offset <= old(State()).avail
      ensures State() == if ok then Popped(old(State()), offset) else old(State())
      ensures ok ==> Written(State(), acked) == old(Written(State(), acked)) + offset
    {
      if bytesAvail == 0 || availableBuffers == [] || length != 0 { return false; }
      ghost var c := State();
      PopKeeps(c, acked, offset);
      hide RingOk;
      hide Written;
      hide Settled;
      var i := availableBuffers[0];
      outgoneBytes := outgoneBytes[i := offset];
      availableBuffers := availableBuffers[1..];
      writePtr := writePtr + offset;
      lastPtr := Some(writePtr);
      if writePtr > len { writePtr := writePtr - len; }
      bytesAvail := bytesAvail - offset;
      ok := true;
      assert State() == Popped(c, offset);
      hide Popped;
    }

    /** Acknowledge from the expected index up. */
    method AckLoop()
      requires |returnedBuffers| == |outgoneBytes| && ackIndex < |returnedBuffers|
      modifies this`bytesAvail, this`availableBuffers, this`returnedBuffers, this`ackIndex
      ensures |old(returnedBuffers)| == |old(outgoneBytes)| && old(ackIndex) < |old(returnedBuffers)|
      ensures State() == Acked(old(State()))
    {
      hide Acked;
      while returnedBuffers[ackIndex]
        invariant |returnedBuffers| == |outgoneBytes| && ackIndex < |returnedBuffers|
        invariant Acked(State()) == Acked(old(State()))
        decreases Waiting(returnedBuffers)
      {
        assert ackIndex in Waiting(returnedBuffers);
        AckUnfold(State());
        ghost var next := AckOne(State());
        bytesAvail := bytesAvail + outgoneBytes[ackIndex];
        availableBuffers := availableBuffers + [ackIndex];
        returnedBuffers := returnedBuffers[ackIndex := false];
        assert ackIndex !in Waiting(returnedBuffers);
        ackIndex := ackIndex + 1;
        if ackIndex == |returnedBuffers| { ackIndex := 0; }
        assert State() == next;
      }
      AckUnfold(State());
    }

    /** Chunk i comes back; another queue's buffer is not kept. */
    method Push(i: nat, mine: bool)
      requires Valid() && i < |returnedBuffers| && (mine ==> Held(State(), i))
      modifies this
      ensures Valid()
      ensures State() == Returned(old(State()), i, mine)
      ensures Written(State(), acked) == old(Written(State(), acked))
    {
      if !mine { return; }
      ReturnKeeps(State(), acked, i);
      returnedBuffers := returnedBuffers[i := true];
      ghost var base := acked + AckedBytes(State());
      AckLoop();
      acked := base;
    }
  }

  lemma {:induction false} NothingOut(outgone: seq<nat>, t: nat)
    requires 0 < |outgone| && t <= |outgone| && forall i :: 0 <= i < |outgone| ==> outgone[i] == 0
    ensures OutBytes(outgone, 0, t) == 0
  {
    if t > 0 { NothingOut(outgone, t - 1); }
  }
}
