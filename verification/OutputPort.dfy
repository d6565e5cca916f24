/** One output port of a block: a pool or a ring behind it, an inline buffer before it, and the
    ready bit that lets work run. */
module OutputPorts {
  import opened Results
  import opened Memory
  import opened OutputQueues
  import Circ = CircQueue
  import CircBuffer

  type Positive = n: nat | n > 0 witness 1

  /** What becomes of an attempt to post: the window that went downstream, if any, and whether
      an assertion failed. */
  datatype Posted = Posted(sent: Option<Issued>, ok: bool)

  /** What mark_done's flush looks at: the ready bit, the inline buffer, the buffer in front of
      the queue, and whether the queue is a ring. */
  datatype Sight = Sight(ready: bool, inline: Option<Buff>, front: Option<Buff>, ring: bool)

  /** The flush of one port. A partial buffer is sent before it is popped; the pop of a ring
      asserts that nothing is left in its front chunk. */
  function Flushed(s: Sight): Posted {
    if !s.ready then Posted(None, true)
    else if s.inline != None then
      Posted(if s.inline.value.length == 0 then None else Some(AsIssued(s.inline.value)), true)
    else if s.front == None then Posted(None, false)
    else if s.front.value.length == 0 then Posted(None, true)
    else Posted(Some(AsIssued(s.front.value)), !s.ring)
  }

  class OutputPort {
    const itemSize: Positive
    /** The bytes of each of the pool's buffers. */
    ghost const size: nat
    var pool: BufferQueuePool?
    var ring: CircBuffer.BufferQueueCirc?
    /** Bytes produced into the ring's front chunk; its offset is always zero. */
    var ringLength: nat
    var ready: bool
    var reserve: nat
    var inline: Option<Buff>
    /** Items produced since the task began. */
    var items: nat
    /** The bit was taken away by output_fail. */
    ghost var failed: bool

    constructor (item: Positive, ghost bytes: nat)
      ensures pool == null && ring == null && !ready && reserve == 1 && inline == None && items == 0 && !failed
      ensures itemSize == item && size == bytes && Sound()
    {
      itemSize, size := item, bytes;
      pool, ring, ringLength, ready, reserve, inline, items := null, null, 0, false, 1, None, 0;
      failed := false;
    }

    /** Buffers come from a pool, from a ring, or from nowhere. */
    ghost predicate Backed()
      reads this, ring
    {
      && (pool == null || ring == null)
      && (ring != null ==> ring.Valid() && ringLength <= ring.chunk)
      && (ring == null ==> ringLength == 0)
    }

    predicate HasFront()
      reads this, pool, ring
    {
      if pool != null then pool.queue != [] else ring != null && !ring.State().Empty()
    }

    /** The buffer in front of the queue. For a ring: its chunk, wherever the write pointer is. */
    function FrontBuff(): Buff
      requires HasFront()
      reads this, pool, ring
    {
      if pool != null then pool.queue[0]
      else Buff(ring.availableBuffers[0], ring.chunk, 0, ringLength, ring.lastPtr)
    }

    /** A pool's buffers are used in whole items, the front one perhaps being produced into. */
    ghost predicate PoolSound()
      reads this, pool
    {
      pool != null && pool.queue != [] ==>
        var b := pool.queue[0];
        && b.offset + b.length <= size && b.length % itemSize == 0
        && Pooled([b.(length := 0)] + pool.queue[1..], size, itemSize)
    }

    /** What holds between and during tasks. */
    ghost predicate Sound()
      reads this, pool, ring
    {
      && Backed() && PoolSound()
      && ready == (!failed && HasFront() && Room(FrontBuff()) + FrontBuff().length >= reserve)
    }

    /** A pool that never starves keeps the port ready whenever it has a buffer, until work
        fails the output. */
    lemma ReadyIffPooled()
      requires Sound() && pool != null && !failed && reserve <= size - MostUsed(size, itemSize)
      ensures ready <==> pool.queue != []
    {
      if pool.queue != [] {
        var b := pool.queue[0];
        PooledHasRoom([b.(length := 0)] + pool.queue[1..], size, itemSize, reserve);
      }
    }

    method Update()
      modifies this`ready, this`failed
      ensures ready == (HasFront() && Room(FrontBuff()) >= reserve) && !failed
    {
      ready := HasFront() && Room(FrontBuff()) >= reserve;
      failed := false;
    }

    method SetPool(p: BufferQueuePool)
      requires Pooled(p.queue, size, itemSize)
      modifies this`pool, this`ring, this`ringLength, this`ready, this`failed
      ensures Sound() && pool == p && ring == null && !failed
    {
      pool, ring, ringLength := p, null, 0;
      Update();
      assert p.queue != [] ==> [p.queue[0].(length := 0)] + p.queue[1..] == p.queue;
    }

    method SetRing(r: CircBuffer.BufferQueueCirc)
      requires r.Valid()
      modifies this`pool, this`ring, this`ringLength, this`ready, this`failed
      ensures Sound() && pool == null && ring == r && ringLength == 0 && !failed
    {
      pool, ring, ringLength := null, r, 0;
      Update();
    }

    /** A pool buffer comes back, reset. */
    method Push(buff: Buff, mine: bool, numbered: bool) returns (ok: bool)
      requires Sound() && (pool == null || pool.queue == [] || pool.queue[0].length == 0)
      requires pool == null ==> ring == null
      requires mine ==> buff.size == size && buff.offset == 0 && buff.length == 0
      modifies this`ready, this`failed, pool
      ensures ok ==> Sound()
      ensures pool == null ==> ok && ready == old(ready)
      ensures pool != null ==> (ok <==> !(mine && numbered))
      ensures pool != null ==> pool.queue == if mine && ok then old(pool.queue) + [buff] else old(pool.queue)
      ensures ok && pool != null ==> !failed
    {
      if pool == null { return true; }
      ghost var q := pool.queue;
      ok := pool.Push(buff, mine, numbered);
      if !ok { return; }
      Update();
      assert q != [] ==> [q[0].(length := 0)] + q[1..] == q;
      assert pool.queue != [] ==> [pool.queue[0].(length := 0)] + pool.queue[1..] == pool.queue;
    }

    /** A ring chunk comes back. */
    method PushChunk(i: nat, mine: bool)
      requires Sound() && ring != null && ringLength == 0
      requires i < |ring.returnedBuffers| && (mine ==> Circ.Held(ring.State(), i))
      modifies this`ready, this`failed, ring
      ensures Sound() && !failed && ring.State() == Circ.Returned(old(ring.State()), i, mine)
    {
      ring.Push(i, mine);
      hide *;
      RestOfPush();
    }

    method RestOfPush()
      requires Backed() && PoolSound() && ring != null && ringLength == 0
      modifies this`ready, this`failed
      ensures Sound() && !failed
    {
      Update();
    }

    /** A task begins. */
    method Begin()
      modifies this`items
      ensures items == 0
    {
      items := 0;
    }

    /** Produce n items into the front buffer; it must hold whole items so far. */
    method Produce(n: nat) returns (ok: bool)
      modifies this`inline, this`items, this`ringLength, pool
      ensures ok <==> if old(inline) != None then old(inline).value.length % itemSize == 0
                      else old(HasFront()) && old(FrontBuff()).length % itemSize == 0
      ensures items == old(items) + if ok then n else 0
      ensures inline == if ok && old(inline) != None
                        then Some(old(inline).value.(length := old(inline).value.length + n * itemSize)) else old(inline)
      ensures ok && inline == None ==>
                HasFront() && FrontBuff() == old(FrontBuff()).(length := old(FrontBuff()).length + n * itemSize)
      ensures !ok || inline != None ==> ringLength == old(ringLength) && (pool != null ==> pool.queue == old(pool.queue))
      ensures pool != null && old(pool.queue) != [] ==> pool.queue != [] && pool.queue[1..] == old(pool.queue)[1..]
      ensures old(Sound()) && (old(inline) != None || (old(HasFront()) && n * itemSize <= Room(old(FrontBuff())))) ==> Sound()
    {
      if inline != None {
        if inline.value.length % itemSize != 0 { return false; }
        inline := Some(inline.value.(length := inline.value.length + n * itemSize));
        items := items + n;
        return true;
      }
      if !HasFront() || FrontBuff().length % itemSize != 0 { return false; }
      ModPeriod(0, n, itemSize);
      SumOfMultiples(FrontBuff().length, n * itemSize, itemSize);
      hide Pooled;
      Extend(n * itemSize);
      items := items + n;
      ok := true;
    }

    /** Lengthen the front window. */
    method Extend(bytes: nat)
      requires HasFront() && (FrontBuff().length + bytes) % itemSize == 0
      modifies this`ringLength, pool
      ensures HasFront() && FrontBuff() == old(FrontBuff()).(length := old(FrontBuff()).length + bytes)
      ensures pool != null ==> ringLength == old(ringLength) && pool.queue[1..] == old(pool.queue)[1..]
      ensures old(Sound()) && bytes <= Room(old(FrontBuff())) ==> Sound()
    {
      if pool != null {
        var b := pool.queue[0].(length := pool.queue[0].length + bytes);
        assert b.(length := 0) == pool.queue[0].(length := 0);
        hide Pooled;
        pool.queue := [b] + pool.queue[1..];
        assert pool.queue[1..] == old(pool.queue)[1..];
      } else {
        ringLength := ringLength + bytes;
      }
    }

    /** consume: the front moves past what was produced; an inline buffer is dropped. False is a
        failed assertion. */
    method Consume() returns (ok: bool)
      requires Backed()
      modifies this`ready, this`failed, this`inline, this`ringLength, pool, ring
      ensures ok <==> old(inline) != None || old(HasFront())
      ensures inline == None
      ensures old(inline) != None || !ok || old(FrontBuff()).length == 0 ==>
        && ready == old(ready) && failed == old(failed) && ringLength == old(ringLength)
        && (pool != null ==> pool.queue == old(pool.queue)) && (ring != null ==> ring.State() == old(ring.State()))
      ensures ok && old(inline) == None && old(FrontBuff()).length > 0 && pool != null ==>
        && pool.queue == PoolPopped([Moved(old(pool.queue)[0], old(pool.queue)[0].length)] + old(pool.queue)[1..])
        && ready == (HasFront() && Room(FrontBuff()) >= reserve)
      ensures ok && old(inline) == None && old(FrontBuff()).length > 0 && pool == null ==>
        && ringLength == 0 && old(ringLength) <= old(ring.State()).avail && ring.State() == Circ.Popped(old(ring.State()), old(ringLength))
        && ready == (HasFront() && Room(FrontBuff()) >= reserve)
      ensures old(Sound()) ==> Sound()
    {
      if inline != None {
        inline := None;
        return true;
      }
      if !HasFront() { return false; }
      var length := FrontBuff().length;
      if length == 0 { return true; }
      if pool != null {
        ConsumePool();
      } else {
        ok := ring.Pop(length, 0);
        ringLength := 0;
        Update();
      }
      ok := true;
    }

    method ConsumePool()
      requires pool != null && ring == null && ringLength == 0 && pool.queue != []
      modifies this`ready, this`failed, pool
      ensures pool.queue == PoolPopped([Moved(old(pool.queue)[0], old(pool.queue)[0].length)] + old(pool.queue)[1..])
      ensures ready == (HasFront() && Room(FrontBuff()) >= reserve) && !failed
      ensures old(PoolSound()) ==> Sound()
    {
      ghost var b := pool.queue[0];
      if PoolSound() {
        var rest := [b.(length := 0)] + pool.queue[1..];
        assert rest[1..] == pool.queue[1..];
        assert Moved(rest[0], b.length) == Moved(b, b.length);
        PoppedPooled(rest, size, itemSize, b.length);
      }
      pool.queue := [Moved(pool.queue[0], pool.queue[0].length)] + pool.queue[1..];
      var _ := pool.Pop();
      Update();
      assert pool.queue != [] && pool.queue[0].length == 0 ==> [pool.queue[0].(length := 0)] + pool.queue[1..] == pool.queue;
    }

    /** The output part of a task's end: the front window goes downstream when something was
        produced, and the queue moves on in any case. An empty port is skipped. */
    method Post() returns (r: Posted)
      requires Backed()
      modifies this`ready, this`failed, this`inline, this`ringLength, pool, ring
      ensures r.ok && inline == None
      ensures old(inline) != None ==> r.sent == if items != 0 then Some(AsIssued(old(inline).value)) else None
      ensures old(inline) == None && old(HasFront()) ==> r.sent == if items != 0 then Some(AsIssued(old(FrontBuff()))) else None
      ensures old(inline) == None && !old(HasFront()) ==> r.sent == None
      ensures old(inline) == None && old(HasFront()) && items != 0 ==>
        r.sent == Some(if pool != null then
                         var b := old(pool.queue)[0]; Issued(b.id, b.offset, b.length, b.last)
                       else Issued(old(ring.availableBuffers)[0], 0, old(ringLength), old(ring.lastPtr)))
      ensures old(Sound()) ==> Sound()
    {
      if inline == None && !HasFront() { return Posted(None, true); }
      var b := if inline != None then inline.value else FrontBuff();
      var ok := Consume();
      r := Posted(if items != 0 then Some(AsIssued(b)) else None, ok);
    }

    /** Reuse an input buffer for output. Work runs only with the bit set, so that it is set
        already when the scheduler does this. */
    method SetInline(buff: Buff) returns (ok: bool)
      modifies this`ready, this`inline
      ensures ok <==> old(inline) == None
      ensures ok ==> ready && inline == Some(buff.(length := 0))
      ensures !ok ==> ready == old(ready) && inline == old(inline)
      ensures old(Sound()) && old(ready) ==> Sound()
    {
      if inline != None { return false; }
      inline, ready := Some(buff.(length := 0)), true;
      ok := true;
    }

    method Fail()
      modifies this`ready, this`failed
      ensures !ready && failed
      ensures old(Sound()) ==> Sound()
    {
      ready, failed := false, true;
    }

    method Flush()
      modifies this
      ensures pool == null && ring == null && !ready && inline == None && reserve == 1 && Sound()
    {
      pool, ring, ringLength, ready, inline, reserve, failed := null, null, 0, false, None, 1, false;
    }

    // ---------------------------------------------------------------- marked done

    function Seen(): Sight
      reads this, pool, ring
    {
      Sight(ready, inline, if HasFront() then Some(FrontBuff()) else None, pool == null)
    }

    /** Over a sound port the flush fails exactly when there is a ring behind it with bytes in
        its front chunk, no inline buffer before it, and the bit is set. */
    lemma FlushRefused()
      requires Sound()
      ensures !Flushed(Seen()).ok <==> ready && inline == None && ring != null && ringLength != 0
    {
      assert ready ==> HasFront();
    }

    /** mark_done's flush of one port: a partial buffer is sent downstream and popped without
        moving it on. */
    method FlushPartial() returns (r: Posted)
      requires Backed()
      modifies this`ready, this`failed, this`inline, pool, ring
      ensures Backed() && r == Flushed(old(Seen()))
      ensures old(ready) && old(inline) != None && old(inline).value.length > 0 ==>
        var b := old(inline).value; r.sent == Some(Issued(b.id, b.offset, b.length, b.last))
      ensures old(ready) && old(inline) == None && old(HasFront()) && old(FrontBuff()).length > 0 ==>
        var b := old(FrontBuff()); r.sent == Some(Issued(b.id, b.offset, b.length, b.last))
      ensures old(ready) && old(inline) != None && old(inline).value.length == 0 ==> r.sent == None
      ensures old(ready) && old(inline) == None && (!old(HasFront()) || old(FrontBuff()).length == 0) ==> r.sent == None
      ensures !old(ready) ==> r.sent == None
    {
      if !ready { return Posted(None, true); }
      if inline != None {
        if inline.value.length == 0 { return Posted(None, true); }
        r := Posted(Some(AsIssued(inline.value)), true);
        inline := None;
        return;
      }
      if !HasFront() { return Posted(None, false); }
      var b := FrontBuff();
      if b.length == 0 { return Posted(None, true); }
      var ok;
      if pool != null {
        ok := pool.Pop();
      } else {
        ok := ring.Pop(0, b.length);
      }
      if ok { Update(); }
      r := Posted(Some(AsIssued(b)), ok);
    }
  }

  // ---------------------------------------------------------------- what the flush sends

  /** Bytes produced on a ready port and not yet posted. */
  function Waiting(s: Sight): nat {
    if !s.ready then 0
    else if s.inline != None then s.inline.value.length
    else if s.front != None then s.front.value.length
    else 0
  }

  function AllWaiting(seen: seq<Sight>): nat {
    if seen == [] then 0 else Waiting(seen[0]) + AllWaiting(seen[1..])
  }

  function SentBytes(sent: seq<Option<Issued>>): nat {
    if sent == [] then 0 else (if sent[0] == None then 0 else sent[0].value.length) + SentBytes(sent[1..])
  }

  /** What goes out of one port is exactly the window that has bytes, whatever is behind the
      port. */
  lemma SentExactly(s: Sight)
    ensures Waiting(s) == 0 <==> Flushed(s).sent == None
    ensures Waiting(s) > 0 ==>
      var b := if s.inline != None then s.inline.value else s.front.value;
      Flushed(s).sent == Some(Issued(b.id, b.offset, b.length, b.last))
  {
  }

  /** Over all ports, every such byte goes out once. */
  lemma {:induction false} FlushBytes(seen: seq<Sight>, sent: seq<Option<Issued>>)
    requires |sent| <= |seen| && forall i :: 0 <= i < |sent| ==> sent[i] == Flushed(seen[i]).sent
    ensures SentBytes(sent) == AllWaiting(seen[..|sent|])
  {
    if sent != [] {
      assert seen[..|sent|][1..] == seen[1..][..|sent| - 1];
      SentExactly(seen[0]);
      FlushBytes(seen[1..], sent[1..]);
    }
  }

  // ---------------------------------------------------------------- all ports of a block

  /** Ports and queues of a block are objects of their own. */
  ghost predicate Apart(ports: seq<OutputPort>)
    reads set p | p in ports
  {
    forall i, j :: 0 <= i < j < |ports| ==>
      && ports[i] != ports[j]
      && (ports[i].pool != null ==> ports[i].pool != ports[j].pool)
      && (ports[i].ring != null ==> ports[i].ring != ports[j].ring)
  }

  ghost function Parts(ports: seq<OutputPort>): set<object>
    reads set p | p in ports
  {
    (set p: OutputPort | p in ports :: p as object)
    + (set p: OutputPort | p in ports && p.pool != null :: p.pool as object)
    + (set p: OutputPort | p in ports && p.ring != null :: p.ring as object)
  }

  /** The ports from the i-th on are as they were seen. */
  ghost predicate Rest(ports: seq<OutputPort>, seen: seq<Sight>, i: nat)
    requires |seen| == |ports|
    reads Parts(ports), set p | p in ports
  {
    forall j :: i <= j < |ports| ==> ports[j].Backed() && ports[j].Seen() == seen[j]
  }

  /** Flushing one port leaves the others as they are. */
  method FlushAt(ports: seq<OutputPort>, p: OutputPort, ghost seen: seq<Sight>, i: nat) returns (r: Posted)
    requires i < |ports| == |seen| && p == ports[i] && Apart(ports) && Rest(ports, seen, i)
    modifies p`ready, p`failed, p`inline, p.pool, p.ring
    ensures r == Flushed(seen[i]) && Rest(ports, seen, i + 1)
  {
    hide Flushed;
    assert p.Backed() && p.Seen() == seen[i];
    r := p.FlushPartial();
    forall j | i < j < |ports| ensures ports[j].Backed() && ports[j].Seen() == seen[j] {
      assert ports[j] != p;
      assert ports[j].pool == null || ports[j].pool != p.pool;
      assert ports[j].ring == null || ports[j].ring != p.ring;
    }
  }

  /** The flush at the beginning of mark_done: one port after the other, until an assertion
      fails. It completes exactly when no port refuses; otherwise it ends at the first that
      does, whose window has been sent, and mark_done goes no further. */
  method FlushPartials(ports: seq<OutputPort>, ghost seen: seq<Sight>) returns (sent: seq<Option<Issued>>, ok: bool)
    requires |seen| == |ports| && Apart(ports) && Rest(ports, seen, 0)
    modifies Parts(ports)
    ensures ok <==> forall i :: 0 <= i < |ports| ==> Flushed(seen[i]).ok
    ensures |sent| <= |ports| && (ok ==> |sent| == |ports|)
    ensures !ok ==> sent != [] && !Flushed(seen[|sent| - 1]).ok
    ensures forall i :: 0 <= i < |sent| ==> sent[i] == Flushed(seen[i]).sent
    ensures SentBytes(sent) == AllWaiting(seen[..|sent|])
  {
    sent := [];
    var i := 0;
    hide Flushed;
    hide Rest;
    while i < |ports|
      invariant 0 <= i <= |ports| && |sent| == i
      invariant forall p :: p in ports ==> p.pool == old(p.pool) && p.ring == old(p.ring)
      invariant Apart(ports) && Rest(ports, seen, i)
      invariant forall j :: 0 <= j < i ==> Flushed(seen[j]).ok && sent[j] == Flushed(seen[j]).sent
    {
      var p := ports[i];
      assert p in ports && p.pool == old(p.pool) && p.ring == old(p.ring);
      var r := FlushAt(ports, p, seen, i);
      sent := sent + [r.sent];
      if !r.ok {
        FlushBytes(seen, sent);
        return sent, false;
      }
      i := i + 1;
    }
    FlushBytes(seen, sent);
    ok := true;
  }

  /** The flush of a block with one output port. */
  method FlushOne(port: OutputPort, ghost seen: Sight) returns (sent: seq<Option<Issued>>, ok: bool)
    requires port.Backed() && port.Seen() == seen
    modifies port, port.pool, port.ring
    ensures ok == Flushed(seen).ok && sent == [Flushed(seen).sent]
  {
    var ports := [port];
    assert ports[0] == port;
    hide Flushed;
    hide AllWaiting;
    hide SentBytes;
    sent, ok := FlushPartials(ports, [seen]);
  }

  /** A ring behind the port, two items produced, and the block marks itself done: the window
      is sent, but the flush fails and the block does not become done. */
  method ProduceThenMarkDone() returns (before: Sight, sent: seq<Option<Issued>>, ok: bool)
    ensures before.ready && before.ring && before.front.Some? && before.front.value.length == 8
    ensures !ok && sent == [Some(AsIssued(before.front.value))]
  {
    var port := RingPort();
    var produced := port.Produce(2);
    before := port.Seen();
    sent, ok := FlushOne(port, before);
  }

  /** A pool behind the port, two items produced, and the block marks itself done: all eight bytes
      go out, and the flush completes. */
  method PoolThenMarkDone() returns (sent: seq<Option<Issued>>, ok: bool)
    ensures ok && sent == [Some(Issued(1, 0, 8, None))]
  {
    var port := ProducedPort();
    sent, ok := FlushOne(port, Sight(true, None, Some(Buff(1, 16, 0, 8, None)), false));
  }

  method ProducedPort() returns (port: OutputPort)
    ensures fresh(port) && port.Backed() && port.ring == null && port.pool != null && fresh(port.pool)
    ensures port.Seen() == Sight(true, None, Some(Buff(1, 16, 0, 8, None)), false)
  {
    port := PoolPort();
    var produced := port.Produce(2);
  }

  method PoolPort() returns (port: OutputPort)
    ensures fresh(port) && port.Sound() && port.ready && port.inline == None && port.itemSize == 4
    ensures port.pool != null && fresh(port.pool) && port.pool.queue == [Buff(1, 16, 0, 0, None)]
  {
    port := new OutputPort(4, 16);
    var pool := new BufferQueuePool();
    var kept := pool.Push(Buff(1, 16, 0, 0, None), true, false);
    port.SetPool(pool);
  }

  method RingPort() returns (port: OutputPort)
    ensures fresh(port) && fresh(port.ring) && port.Sound() && port.ready && port.inline == None && port.itemSize == 4
    ensures port.pool == null && port.HasFront() && port.FrontBuff().length == 0 && port.ringLength == 0
    ensures port.ring != null && port.ring.chunk == 16
  {
    port := new OutputPort(4, 16);
    var ring := new CircBuffer.BufferQueueCirc(16, 1, 4096);
    port.SetRing(ring);
    OneChunk(ring.State());
    port.PushChunk(0, true);
  }

  /** The only chunk of a ring comes back: it is available, and the ring is empty of data. */
  lemma OneChunk(c: Circ.Circ)
    requires c.Count() == 1 && c.returned == [false] && c.outgone == [0] && c.available == [] && c.ack == 0 && c.avail > 0
    ensures var d := Circ.Returned(c, 0, true); d.available == [0] && d.avail == c.avail && d.chunk == c.chunk && !d.Empty()
  {
    var c1 := c.(returned := c.returned[0 := true]);
    Circ.AckUnfold(c1);
    Circ.AckUnfold(Circ.AckOne(c1));
  }
}
