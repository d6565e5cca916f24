/** A ring producer feeding one input queue through the consumer's mailbox: every run
    delivers the produced bytes, in order, and never overwrites a byte that can be read. */
module RingLink {
  import opened Results
  import opened Memory
  import opened Views
  import opened CircQueue
  import opened Stitching

  /** sent: every byte the producer wrote. got: every byte the consumer read and used.
      flight: buffers posted but not yet handled. base: bytes acknowledged. */
  datatype Link = Link(
    ring: Circ, base: nat, mem: Store, ringMem: nat,
    queue: seq<View>, flight: seq<View>, sent: seq<byte>, got: seq<byte>)
  {
    function Arrived(): int { |sent| - Total(flight) }
  }

  // ---------------------------------------------------------------- steps

  /** The producer fills part of the front chunk and posts it. */
  ghost predicate Produce(l: Link, l': Link, data: seq<byte>) {
    && !l.ring.Empty() && 0 < |data| <= l.ring.chunk
    && l.ring.available[0] < l.ring.Count() && |data| <= l.ring.avail
    && var at := Address(l.ringMem, l.ring.write);
       l' == l.(ring := Popped(l.ring, |data|), mem := Write(l.mem, at, data), sent := l.sent + data,
                flight := l.flight + [View(l.ring.available[0], at, 0, |data|,
                   if l.ring.last == None then None else Some(Address(l.ringMem, l.ring.last.value)))])
  }

  /** The consumer's handler pushes the oldest posted buffer. */
  ghost predicate Deliver(l: Link, l': Link) {
    l.flight != [] && l' == l.(queue := Pushed(l.queue, l.flight[0]), flight := l.flight[1..])
  }

  /** Work reads and uses n bytes of the front view. */
  ghost predicate Use(l: Link, l': Link, n: nat) {
    && l.queue != [] && n <= l.queue[0].length
    && l' == l.(queue := Consumed(l.queue, n), got := l.got + Read(l.mem, l.queue[0].Get(0), n))
  }

  /** The front is too small: copy into a flat buffer that nobody refers to. */
  ghost predicate Gathered(l: Link, l': Link, acc: View, free: nat) {
    && l.queue != [] && 0 < free && l.queue[0].length <= free && acc.length == 0
    && acc.base.mem != l.ringMem && AccReady(l.mem, acc, l.queue + l.flight, free)
    && var h := Accumulated(l.mem, l.queue, acc, free);
       l' == l.(queue := h.queue, mem := h.mem)
  }

  /** The last handle to chunk i is gone, and the return message is handled. */
  ghost predicate GiveBack(l: Link, l': Link, i: nat) {
    && Held(l.ring, i) && l.ring.ack < l.ring.Count()
    && (forall v :: v in l.queue + l.flight ==> !(v.base.mem == l.ringMem && v.buf == i))
    && l' == l.(ring := Returned(l.ring, i, true),
                base := l.base + AckedBytes(l.ring.(returned := l.ring.returned[i := true])))
  }

  /** A new flat region is allocated. */
  ghost predicate Allocate(l: Link, l': Link, k: nat, r: Region) {
    k !in l.mem && l' == l.(mem := l.mem[k := r])
  }

  ghost predicate Next(l: Link, l': Link) {
    || (exists data :: Produce(l, l', data))
    || Deliver(l, l')
    || (exists n :: Use(l, l', n))
    || (exists acc, free :: Gathered(l, l', acc, free))
    || (exists i :: GiveBack(l, l', i))
    || (exists k, r :: Allocate(l, l', k, r))
  }

  ghost predicate Init(l: Link) {
    && RingOk(l.ring, 0) && l.base == 0 && l.ring.avail == l.ring.len && l.ring.available == []
    && l.ring.last == None && l.ring.write == 0
    && l.ringMem in l.mem && l.mem[l.ringMem].Ring? && |l.mem[l.ringMem].cells| == l.ring.len
    && l.queue == [] && l.flight == [] && l.sent == [] && l.got == []
  }

  // ---------------------------------------------------------------- invariant

  /** Where the bytes of each held chunk begin in the stream. */
  ghost function Roots(c: Circ, base: nat): map<nat, nat>
    requires c.ack < c.Count()
  {
    map i | 0 <= i < c.Count() && Held(c, i) :: Root(c, base, i)
  }

  /** A window into the ring belongs to a held chunk, and its offset counts stream bytes
      from that chunk's first byte. */
  ghost predicate RootedAt(v: View, p: nat, roots: map<nat, nat>, rm: nat, len: nat) {
    v.base.mem == rm ==>
      && v.buf in roots && roots[v.buf] + v.offset == p
      && 0 < len && v.base.pos <= len && v.base.pos % len == roots[v.buf] % len
  }

  ghost predicate Rooted(q: seq<View>, c: nat, roots: map<nat, nat>, rm: nat, len: nat) {
    forall j {:trigger q[j]} :: 0 <= j < |q| ==> RootedAt(q[j], Starts(q, c)[j], roots, rm, len)
  }

  ghost predicate RingReady(l: Link) {
    && RingOk(l.ring, l.base) && Written(l.ring, l.base) == |l.sent|
    && l.ringMem in l.mem && l.mem[l.ringMem].Ring? && |l.mem[l.ringMem].cells| == l.ring.len
  }

  ghost predicate QueueOk(m: Store, q: seq<View>, s: seq<byte>, c: nat, roots: map<nat, nat>, rm: nat, len: nat) {
    Holds(m, q, s, c) && Linked(m, q) && Rooted(q, c, roots, rm, len)
  }

  ghost predicate FlightOk(m: Store, f: seq<View>, s: seq<byte>, c: nat, roots: map<nat, nat>, rm: nat, len: nat) {
    Holds(m, f, s, c) && HonestFrom(m, f, 0) && Rooted(f, c, roots, rm, len)
  }

  /** arrived: stream position up to which the consumer has handled what was posted. */
  ghost predicate InvAt(l: Link, arrived: nat) {
    && RingReady(l)
    && arrived + Total(l.flight) == |l.sent| && |l.got| <= arrived
    && l.got == l.sent[..|l.got|]
    && QueueOk(l.mem, l.queue, l.sent[..arrived], |l.got|, Roots(l.ring, l.base), l.ringMem, l.ring.len)
    && FlightOk(l.mem, l.flight, l.sent, arrived, Roots(l.ring, l.base), l.ringMem, l.ring.len)
  }

  ghost predicate Inv(l: Link) {
    0 <= l.Arrived() && InvAt(l, l.Arrived())
  }

  // ---------------------------------------------------------------- windows keep their roots

  lemma RootedFront(q: seq<View>, c: nat, roots: map<nat, nat>, rm: nat, len: nat)
    requires Rooted(q, c, roots, rm, len) && q != []
    ensures RootedAt(q[0], c, roots, rm, len)
    ensures Rooted(q[1..], c + q[0].length, roots, rm, len)
  {
    hide RootedAt;
    assert RootedAt(q[0], Starts(q, c)[0], roots, rm, len);
    forall j | 0 <= j < |q| - 1
      ensures RootedAt(q[1..][j], Starts(q[1..], c + q[0].length)[j], roots, rm, len)
    {
      assert q[1..][j] == q[j + 1];
    }
  }

  lemma RootedCons(v: View, q: seq<View>, c: nat, roots: map<nat, nat>, rm: nat, len: nat)
    requires RootedAt(v, c, roots, rm, len) && Rooted(q, c + v.length, roots, rm, len)
    ensures Rooted([v] + q, c, roots, rm, len)
  {
    hide RootedAt;
    var w := [v] + q;
    assert w[1..] == q;
    forall j | 0 <= j < |w|
      ensures RootedAt(w[j], Starts(w, c)[j], roots, rm, len)
    {
      if j > 0 { assert w[j] == q[j - 1]; }
    }
  }

  lemma RootedAppend(q: seq<View>, v: View, c: nat, roots: map<nat, nat>, rm: nat, len: nat)
    requires Rooted(q, c, roots, rm, len) && RootedAt(v, c + Total(q), roots, rm, len)
    ensures Rooted(q + [v], c, roots, rm, len)
  {
    hide RootedAt;
    hide Total;
    var w, at, at' := q + [v], Starts(q, c), Starts(q + [v], c);
    AppendStarts(q, v, c);
    hide Starts;
    forall j | 0 <= j < |w|
      ensures RootedAt(w[j], at'[j], roots, rm, len)
    {
      if j < |q| {
        assert RootedAt(q[j], at[j], roots, rm, len);
        assert w[j] == q[j] && at'[j] == at[j];
      } else {
        assert w[j] == v && at'[j] == c + Total(q);
      }
    }
  }

  lemma RootedStitchPair(q: seq<View>, j: nat, c: nat, roots: map<nat, nat>, rm: nat, len: nat)
    requires 1 <= j < |q| && Rooted(q, c, roots, rm, len)
    ensures Rooted(StitchPair(q, j), c, roots, rm, len)
  {
    var r := StitchPair(q, j);
    if r != q {
      StitchPairStarts(q, c, j);
      forall k | 0 <= k < |r|
        ensures RootedAt(r[k], Starts(r, c)[k], roots, rm, len)
      {
        assert RootedAt(q[k], Starts(q, c)[k], roots, rm, len);
      }
    }
  }

  lemma {:induction false} RootedStitchDown(q: seq<View>, j: nat, c: nat, roots: map<nat, nat>, rm: nat, len: nat)
    requires (j < |q| || j == 0) && Rooted(q, c, roots, rm, len)
    ensures Rooted(StitchDown(q, j), c, roots, rm, len)
    decreases j
  {
    hide Rooted;
    if j > 0 {
      RootedStitchPair(q, j, c, roots, rm, len);
      RootedStitchDown(StitchPair(q, j), j - 1, c, roots, rm, len);
    }
  }

  lemma RootedDrop(q: seq<View>, c: nat, roots: map<nat, nat>, rm: nat, len: nat)
    requires |q| >= 2 && Rooted(q, c, roots, rm, len)
    ensures Rooted(DropStitchedBack(q), c, roots, rm, len)
  {
    hide RootedAt;
    var r := DropStitchedBack(q);
    if |r| < |q| {
      StartsUnique(r, c, Starts(q, c)[..|q|]);
      forall j | 0 <= j < |r| ensures r[j] == q[j] {}
    }
  }

  lemma RootedPush(q: seq<View>, v: View, c: nat, roots: map<nat, nat>, rm: nat, len: nat)
    requires Rooted(q, c, roots, rm, len) && RootedAt(v, c + Total(q), roots, rm, len)
    ensures Rooted(Pushed(q, v), c, roots, rm, len)
  {
    hide Rooted;
    hide RootedAt;
    if v.length > 0 {
      RootedAppend(q, v, c, roots, rm, len);
      if q == [] {
        assert q + [v] == [v];
      } else {
        RootedStitchDown(q + [v], |q|, c, roots, rm, len);
        RootedDrop(StitchDown(q + [v], |q|), c, roots, rm, len);
      }
    }
  }

  lemma RootedShorten(q: seq<View>, n: nat, c: nat, roots: map<nat, nat>, rm: nat, len: nat)
    requires Rooted(q, c, roots, rm, len) && q != [] && n <= q[0].length
    ensures Rooted(Shortened(q, n), c + n, roots, rm, len)
  {
    hide Rooted;
    RootedFront(q, c, roots, rm, len);
    if n < q[0].length { RootedCons(Advanced(q[0], n), q[1..], c + n, roots, rm, len); }
  }

  lemma RootedUnstitch(q: seq<View>, c: nat, roots: map<nat, nat>, rm: nat, len: nat)
    requires Rooted(q, c, roots, rm, len)
    ensures Rooted(Unstitched(q), c, roots, rm, len)
  {
    hide Rooted;
    if Unstitched(q) != q {
      var tail := q[1..];
      var back := tail[0].(offset := tail[0].offset - q[0].length, length := tail[0].length + q[0].length);
      RootedFront(q, c, roots, rm, len);
      RootedFront(tail, c + q[0].length, roots, rm, len);
      RootedCons(back, tail[1..], c, roots, rm, len);
      assert tail[1..] == q[2..];
    }
  }

  lemma {:induction false} RootedGather(g: Gathering, free: nat, c: nat, roots: map<nat, nat>, rm: nat, len: nat)
    requires Rooted(g.queue, c + g.acc.length, roots, rm, len)
    ensures Rooted(Gather(g, free).queue, c + Gather(g, free).acc.length, roots, rm, len)
    decreases |g.queue|, free
  {
    hide Rooted;
    hide Write;
    hide Read;
    if g.queue != [] && free > 0 {
      var f, n, h := g.queue[0], Min(g.queue[0].length, free), GatherStep(g, free);
      RootedFront(g.queue, c + g.acc.length, roots, rm, len);
      if n < f.length {
        RootedCons(h.queue[0], g.queue[1..], c + h.acc.length, roots, rm, len);
        assert h.queue == [h.queue[0]] + g.queue[1..];
      }
      RootedGather(h, free - n, c, roots, rm, len);
    }
  }

  // ---------------------------------------------------------------- no overwriting

  /** A byte of a held chunk's memory up to the end of any window rooted in it is none of
      the bytes the producer may write next. */
  lemma Apart(l: Link, v: View, p: nat, d: nat, e: nat)
    requires RingReady(l) && RootedAt(v, p, Roots(l.ring, l.base), l.ringMem, l.ring.len)
    requires p + v.length <= |l.sent| && d < v.offset + v.length && e < l.ring.avail
    ensures !Alias(l.mem, Address(l.ringMem, l.ring.write).At(e), v.base.At(d))
  {
    if v.base.mem == l.ringMem {
      var s := Roots(l.ring, l.base)[v.buf];
      ModShift(v.base.pos, s, d, l.ring.len);
      ModShift(l.ring.write, |l.sent|, e, l.ring.len);
      ModApart(s + d, |l.sent| + e, l.ring.len);
    }
  }

  lemma HoldsWrite(m: Store, q: seq<View>, s: seq<byte>, c: nat, at: Address, data: seq<byte>)
    requires Holds(m, q, s, c)
    requires forall v, d: nat, e: nat {:trigger v.base.At(d), at.At(e)} ::
               v in q && d < v.offset + v.length && e < |data| ==> !Alias(m, at.At(e), v.base.At(d))
    ensures Holds(Write(m, at, data), q, s, c)
  {
    var m' := Write(m, at, data);
    WriteShape(m, at, data);
    forall j | 0 <= j < |q|
      ensures Carries(m', q[j], s, Starts(q, c)[j])
    {
      var v, p := q[j], Starts(q, c)[j];
      assert Carries(m, v, s, p);
      forall d {:trigger v.base.At(d)} | 0 <= d < v.offset + v.length && v.offset <= p + d
        ensures Peek(m', v.base.At(d)) == s[p + d - v.offset]
      {
        WriteElsewhere(m, at, data, v.base.At(d));
      }
    }
  }

  /** The producer's write is seen through no window of a rooted queue. */
  lemma ProduceUnseen(l: Link, q: seq<View>, s: seq<byte>, c: nat, data: seq<byte>)
    requires RingReady(l) && Rooted(q, c, Roots(l.ring, l.base), l.ringMem, l.ring.len)
    requires |s| <= |l.sent| && Holds(l.mem, q, s, c) && |data| <= l.ring.avail
    ensures Holds(Write(l.mem, Address(l.ringMem, l.ring.write), data), q, s, c)
  {
    var at := Address(l.ringMem, l.ring.write);
    forall v, d: nat, e: nat {:trigger v.base.At(d), at.At(e)} | v in q && d < v.offset + v.length && e < |data|
      ensures !Alias(l.mem, at.At(e), v.base.At(d))
    {
      var j :| 0 <= j < |q| && q[j] == v;
      assert RootedAt(q[j], Starts(q, c)[j], Roots(l.ring, l.base), l.ringMem, l.ring.len);
      assert Carries(l.mem, q[j], s, Starts(q, c)[j]);
      Apart(l, v, Starts(q, c)[j], d, e);
    }
    HoldsWrite(l.mem, q, s, c, at, data);
  }

  /** New roots that keep the old ones root the same windows. */
  lemma RootedGrow(q: seq<View>, c: nat, roots: map<nat, nat>, roots': map<nat, nat>, rm: nat, len: nat)
    requires Rooted(q, c, roots, rm, len)
    requires forall v :: v in q && v.base.mem == rm && v.buf in roots ==> v.buf in roots' && roots'[v.buf] == roots[v.buf]
    ensures Rooted(q, c, roots', rm, len)
  {
    forall j | 0 <= j < |q|
      ensures RootedAt(q[j], Starts(q, c)[j], roots', rm, len)
    {
      assert RootedAt(q[j], Starts(q, c)[j], roots, rm, len);
      assert q[j] in q;
    }
  }

  lemma PopRootsAll(c: Circ, base: nat, n: nat)
    requires RingOk(c, base) && c.available != [] && n <= c.chunk && n <= c.avail && c.available[0] < c.Count()
    ensures var roots, roots' := Roots(c, base), Roots(Popped(c, n), base);
            && (forall i :: i in roots ==> i in roots' && roots'[i] == roots[i])
            && c.available[0] in roots' && roots'[c.available[0]] == Written(c, base)
  {
    var d, a := Popped(c, n), c.available[0];
    assert a == Index(c.ack, c.Out(), c.Count()) && Rank(c.ack, a, c.Count()) == c.Out();
    assert Held(d, a);
    PopRoots(c, base, n, a);
    forall i | i in Roots(c, base)
      ensures i in Roots(d, base) && Roots(d, base)[i] == Root(c, base, i)
    {
      assert Held(d, i);
      PopRoots(c, base, n, i);
    }
  }

  lemma GiveBackRoot(c: Circ, base: nat, i: nat, k: nat)
    requires RingOk(c, base) && Held(c, i) && Held(c, k) && k != i
    ensures var c1 := c.(returned := c.returned[i := true]);
            Held(Returned(c, i, true), k) && Root(Returned(c, i, true), base + AckedBytes(c1), k) == Root(c, base, k)
  {
    ReturnKeeps(c, base, i);
    var c1 := c.(returned := c.returned[i := true]);
    hide RingOk;
    assert Held(c1, k) && Root(c1, base, k) == Root(c, base, k);
    hide OutBytes;
    hide Rank;
    hide AckedBytes;
    AckRoots(c1, base, k);
  }

  lemma GiveBackEach(c: Circ, base: nat, i: nat, k: nat)
    requires RingOk(c, base) && Held(c, i) && c.ack < c.Count() && k != i
    ensures var c1 := c.(returned := c.returned[i := true]);
            var c', base' := Returned(c, i, true), base + AckedBytes(c1);
            && c'.ack < c'.Count()
            && (k in Roots(c, base) ==> k in Roots(c', base') && Roots(c', base')[k] == Roots(c, base)[k])
  {
    hide RingOk;
    hide Acked;
    hide AckedBytes;
    hide OutBytes;
    hide Rank;
    if k in Roots(c, base) {
      GiveBackRoot(c, base, i, k);
    }
  }

  lemma GiveBackRoots(c: Circ, base: nat, i: nat)
    requires RingOk(c, base) && Held(c, i) && c.ack < c.Count()
    ensures var c1 := c.(returned := c.returned[i := true]);
            var c', base' := Returned(c, i, true), base + AckedBytes(c1);
            && RingOk(c', base') && Written(c', base') == Written(c, base) && c'.len == c.len
            && forall k :: k in Roots(c, base) && k != i ==> k in Roots(c', base') && Roots(c', base')[k] == Roots(c, base)[k]
  {
    hide RingOk;
    hide Acked;
    hide AckedBytes;
    hide Root;
    hide Rank;
    assert |c.returned| == c.Count() && i < c.Count();
    ReturnKeeps(c, base, i);
    GiveBackEach(c, base, i, i + 1);
    var c1 := c.(returned := c.returned[i := true]);
    var c', base' := Returned(c, i, true), base + AckedBytes(c1);
    hide Held;
    hide Roots;
    hide Returned;
    forall k | k in Roots(c, base) && k != i
      ensures k in Roots(c', base') && Roots(c', base')[k] == Roots(c, base)[k]
    {
      GiveBackEach(c, base, i, k);
    }
  }

  // ---------------------------------------------------------------- every step keeps the invariant

  lemma PrefixOfGrown(s: seq<byte>, data: seq<byte>, n: nat)
    requires n <= |s|
    ensures (s + data)[..n] == s[..n]
  {
  }

  lemma PrefixExtended(s: seq<byte>, c: nat, n: nat, a: nat, part: seq<byte>)
    requires c + n <= a <= |s| && part == s[..a][c..c + n]
    ensures s[..c] + part == s[..c + n]
  {
  }

  lemma RingWritable(l: Link, n: nat)
    requires RingReady(l) && n <= l.ring.avail
    ensures Writable(l.mem, Address(l.ringMem, l.ring.write), n)
  {
    var at := Address(l.ringMem, l.ring.write);
    forall d, e {:trigger at.At(d), at.At(e)} | 0 <= d < e < n
      ensures !Alias(l.mem, at.At(d), at.At(e))
    {
      ModApart(l.ring.write + d, l.ring.write + e, l.ring.len);
    }
  }

  lemma FreshCarries(m: Store, v: View, s: seq<byte>, data: seq<byte>)
    requires v.offset == 0 && v.length == |data| && Read(m, v.base, |data|) == data
    requires v.base.mem in m && |m[v.base.mem].cells| > 0 && m[v.base.mem].Ring?
    ensures Carries(m, v, s + data, |s|)
  {
    forall d {:trigger v.base.At(d)} | 0 <= d < v.length && 0 <= |s| + d
      ensures Peek(m, v.base.At(d)) == (s + data)[|s| + d]
    {
      assert Read(m, v.base, |data|)[d] == data[d];
    }
  }

  /** The posted buffer carries the new bytes, and its mark names where they begin. */
  lemma ProducedView(l: Link, data: seq<byte>, v: View)
    requires RingReady(l) && |data| <= l.ring.avail
    requires v.base == Address(l.ringMem, l.ring.write) && v.offset == 0 && v.length == |data|
    requires v.last == if l.ring.last == None then None else Some(Address(l.ringMem, l.ring.last.value))
    ensures var m' := Write(l.mem, v.base, data);
            Carries(m', v, l.sent + data, |l.sent|) && Honest(m', v)
  {
    var m' := Write(l.mem, v.base, data);
    RingWritable(l, |data|);
    WriteShape(l.mem, v.base, data);
    hide Write;
    hide Writable;
    hide Carries;
    WriteReadBack(l.mem, v.base, data);
    FreshCarries(m', v, l.sent, data);
    assert v.Get(0) == v.base;
  }

  lemma ProduceRing(l: Link, l': Link, data: seq<byte>)
    requires RingReady(l) && Produce(l, l', data)
    ensures RingReady(l') && SameShape(l.mem, l'.mem)
    ensures var roots, roots' := Roots(l.ring, l.base), Roots(l'.ring, l'.base);
            && (forall i :: i in roots ==> i in roots' && roots'[i] == roots[i])
            && RootedAt(l'.flight[|l.flight|], |l.sent|, roots', l.ringMem, l.ring.len)
  {
    hide Write;
    hide Peek;
    WriteShape(l.mem, Address(l.ringMem, l.ring.write), data);
    PopKeeps(l.ring, l.base, |data|);
    PopRootsAll(l.ring, l.base, |data|);
  }

  lemma ProduceQueue(l: Link, l': Link, data: seq<byte>, arrived: nat)
    requires InvAt(l, arrived) && Produce(l, l', data)
    ensures QueueOk(l'.mem, l'.queue, l'.sent[..arrived], |l'.got|, Roots(l'.ring, l'.base), l'.ringMem, l'.ring.len)
  {
    hide Write;
    hide Carries;
    hide Total;
    ProduceRing(l, l', data);
    hide RingOk;
    hide Roots;
    hide Holds;
    hide Rooted;
    hide Linked;
    ProduceUnseen(l, l.queue, l.sent[..arrived], |l.got|, data);
    PrefixOfGrown(l.sent, data, arrived);
    LinkedShape(l.mem, l'.mem, l.queue);
    RootedGrow(l.queue, |l.got|, Roots(l.ring, l.base), Roots(l'.ring, l'.base), l.ringMem, l.ring.len);
  }

  lemma ProduceFlight(l: Link, l': Link, data: seq<byte>, arrived: nat)
    requires InvAt(l, arrived) && Produce(l, l', data)
    ensures FlightOk(l'.mem, l'.flight, l'.sent, arrived, Roots(l'.ring, l'.base), l'.ringMem, l'.ring.len)
    ensures Total(l'.flight) == Total(l.flight) + |data|
  {
    hide Write;
    hide Carries;
    hide Total;
    hide Honest;
    ProduceRing(l, l', data);
    hide RingOk;
    hide Roots;
    hide Holds;
    hide Rooted;
    hide RootedAt;
    hide Linked;
    hide HonestFrom;
    var v := l'.flight[|l.flight|];
    ProduceUnseen(l, l.flight, l.sent, arrived, data);
    ProducedView(l, data, v);
    AppendStarts(l.flight, v, arrived);
    AppendHolds(l'.mem, l.flight, l.sent, arrived, v, data);
    HonestShape(l.mem, l'.mem, l.flight, 0);
    HonestAppend(l'.mem, l.flight, v);
    RootedGrow(l.flight, arrived, Roots(l.ring, l.base), Roots(l'.ring, l'.base), l.ringMem, l.ring.len);
    RootedAppend(l.flight, v, arrived, Roots(l'.ring, l'.base), l.ringMem, l.ring.len);
  }

  lemma ProduceKeeps(l: Link, l': Link, data: seq<byte>, arrived: nat)
    requires InvAt(l, arrived) && Produce(l, l', data)
    ensures InvAt(l', arrived)
  {
    ProduceRing(l, l', data);
    ProduceQueue(l, l', data, arrived);
    ProduceFlight(l, l', data, arrived);
    PrefixOfGrown(l.sent, data, |l.got|);
    hide Write;
    hide RingReady;
    hide QueueOk;
    hide FlightOk;
  }

  lemma HonestAppend(m: Store, q: seq<View>, v: View)
    requires HonestFrom(m, q, 0) && Honest(m, v)
    ensures HonestFrom(m, q + [v], 0)
  {
    hide Honest;
  }

  lemma HonestTail(m: Store, q: seq<View>)
    requires HonestFrom(m, q, 0) && q != []
    ensures HonestFrom(m, q[1..], 0) && Honest(m, q[0])
  {
    hide Honest;
    assert Honest(m, q[0]);
    forall j | 0 <= j < |q| - 1 ensures q[1..][j] == q[j + 1] {}
  }

  lemma CarriesPrefix(m: Store, v: View, s: seq<byte>, p: nat, n: nat)
    requires Carries(m, v, s, p) && p + v.length <= n <= |s|
    ensures Carries(m, v, s[..n], p)
  {
  }

  lemma DeliverFront(m: Store, f: seq<View>, s: seq<byte>, arrived: nat, roots: map<nat, nat>, rm: nat, len: nat)
    requires f != [] && arrived <= |s| && FlightOk(m, f, s, arrived, roots, rm, len)
    ensures arrived + f[0].length <= |s|
    ensures Carries(m, f[0], s[..arrived + f[0].length], arrived) && Honest(m, f[0])
    ensures Read(m, f[0].Get(0), f[0].length) == s[arrived..arrived + f[0].length]
    ensures RootedAt(f[0], arrived, roots, rm, len)
    ensures FlightOk(m, f[1..], s, arrived + f[0].length, roots, rm, len)
  {
    hide Carries;
    hide Honest;
    hide HonestFrom;
    hide Rooted;
    hide RootedAt;
    hide Holds;
    hide Total;
    hide Starts;
    FrontCarries(m, f, s, arrived);
    FrontReads(m, f, s, arrived);
    TailHolds(m, f, s, arrived);
    HonestTail(m, f);
    RootedFront(f, arrived, roots, rm, len);
    CarriesPrefix(m, f[0], s, arrived, arrived + f[0].length);
  }

  lemma DeliverPush(m: Store, q: seq<View>, v: View, s: seq<byte>, c: nat, data: seq<byte>,
                    roots: map<nat, nat>, rm: nat, len: nat)
    requires QueueOk(m, q, s, c, roots, rm, len) && |data| == v.length
    requires Carries(m, v, s + data, |s|) && Honest(m, v) && RootedAt(v, |s|, roots, rm, len)
    ensures QueueOk(m, Pushed(q, v), s + data, c, roots, rm, len)
  {
    hide Carries;
    hide Honest;
    hide Linked;
    hide Rooted;
    hide RootedAt;
    hide Pushed;
    hide Holds;
    hide Total;
    HoldsWithin(m, q, s, c);
    PushKeeps(m, q, s, c, v, data);
    RootedPush(q, v, c, roots, rm, len);
  }

  /** The oldest posted buffer moves from one queue to the other. */
  lemma DeliverQueues(m: Store, q: seq<View>, f: seq<View>, s: seq<byte>, c: nat, arrived: nat,
                      roots: map<nat, nat>, rm: nat, len: nat)
    requires f != [] && arrived <= |s| && QueueOk(m, q, s[..arrived], c, roots, rm, len)
    requires FlightOk(m, f, s, arrived, roots, rm, len)
    ensures arrived + f[0].length <= |s|
    ensures QueueOk(m, Pushed(q, f[0]), s[..arrived + f[0].length], c, roots, rm, len)
    ensures FlightOk(m, f[1..], s, arrived + f[0].length, roots, rm, len)
  {
    hide FlightOk;
    hide QueueOk;
    hide Carries;
    hide Honest;
    hide RootedAt;
    hide Pushed;
    hide Read;
    DeliverFront(m, f, s, arrived, roots, rm, len);
    var data := s[arrived..arrived + f[0].length];
    assert s[..arrived] + data == s[..arrived + f[0].length];
    DeliverPush(m, q, f[0], s[..arrived], c, data, roots, rm, len);
  }

  lemma DeliverKeeps(l: Link, l': Link, arrived: nat)
    requires InvAt(l, arrived) && Deliver(l, l')
    ensures InvAt(l', arrived + l.flight[0].length)
  {
    DeliverQueues(l.mem, l.queue, l.flight, l.sent, |l.got|, arrived, Roots(l.ring, l.base), l.ringMem, l.ring.len);
    hide RingOk;
    hide QueueOk;
    hide FlightOk;
    hide Roots;
    hide Pushed;
  }

  lemma ReadPrefix(m: Store, a: Address, n: nat, k: nat)
    requires k <= n
    ensures Read(m, a, k) == Read(m, a, n)[..k]
  {
  }

  lemma UseQueue(m: Store, q: seq<View>, s: seq<byte>, c: nat, n: nat, roots: map<nat, nat>, rm: nat, len: nat)
    requires QueueOk(m, q, s, c, roots, rm, len) && q != [] && n <= q[0].length
    ensures QueueOk(m, Consumed(q, n), s, c + n, roots, rm, len)
    ensures c + n <= |s| && Read(m, q[0].Get(0), n) == s[c..c + n]
  {
    hide Holds;
    hide Linked;
    hide Rooted;
    hide Read;
    hide Total;
    FrontReads(m, q, s, c);
    ReadPrefix(m, q[0].Get(0), q[0].length, n);
    ConsumeKeeps(m, q, s, c, n);
    RootedShorten(q, n, c, roots, rm, len);
    RootedUnstitch(Shortened(q, n), c + n, roots, rm, len);
  }

  lemma InvParts(l: Link, arrived: nat, heard: seq<byte>)
    requires InvAt(l, arrived) && heard == l.sent[..arrived]
    ensures |l.got| <= arrived <= |l.sent| && l.got == l.sent[..|l.got|] && l.ring.ack < l.ring.Count()
    ensures QueueOk(l.mem, l.queue, heard, |l.got|, Roots(l.ring, l.base), l.ringMem, l.ring.len)
  {
    hide QueueOk;
    hide FlightOk;
    hide Roots;
    hide Total;
  }

  lemma UseMeans(l: Link, l': Link, n: nat)
    requires Use(l, l', n)
    ensures l.queue != [] && n <= l.queue[0].length
    ensures l'.queue == Consumed(l.queue, n) && l'.got == l.got + Read(l.mem, l.queue[0].Get(0), n)
    ensures l'.mem == l.mem && l'.sent == l.sent && l'.ring == l.ring && l'.base == l.base && l'.ringMem == l.ringMem
  {
    hide Consumed;
    hide Read;
  }

  lemma UseParts(l: Link, l': Link, n: nat, arrived: nat, heard: seq<byte>)
    requires InvAt(l, arrived) && Use(l, l', n) && arrived <= |l.sent| && heard == l.sent[..arrived]
    ensures |l'.got| <= arrived && l'.got == l'.sent[..|l'.got|]
    ensures QueueOk(l'.mem, l'.queue, heard, |l'.got|, Roots(l'.ring, l'.base), l'.ringMem, l'.ring.len)
  {
    hide *;
    InvParts(l, arrived, heard);
    UseMeans(l, l', n);
    UseQueue(l.mem, l.queue, heard, |l.got|, n, Roots(l.ring, l.base), l.ringMem, l.ring.len);
    UsedPrefix(l.sent, l.got, Read(l.mem, l.queue[0].Get(0), n), n, arrived, heard);
  }

  lemma UsedPrefix(sent: seq<byte>, got: seq<byte>, part: seq<byte>, n: nat, arrived: nat, heard: seq<byte>)
    requires |got| + n <= arrived <= |sent| && got == sent[..|got|] && heard == sent[..arrived]
    requires part == heard[|got|..|got| + n]
    ensures |got + part| == |got| + n && got + part == sent[..|got + part|]
  {
    PrefixExtended(sent, |got|, n, arrived, part);
  }

  lemma UseKeeps(l: Link, l': Link, n: nat, arrived: nat)
    requires InvAt(l, arrived) && Use(l, l', n)
    ensures InvAt(l', arrived)
  {
    InvParts(l, arrived, l.sent[..arrived]);
    UseParts(l, l', n, arrived, l.sent[..arrived]);
    UseRing(l, l', n);
    hide RingReady;
    hide QueueOk;
    hide FlightOk;
    hide Roots;
    hide Consumed;
    hide Read;
    hide Total;
  }

  lemma UseRing(l: Link, l': Link, n: nat)
    requires RingReady(l) && Use(l, l', n)
    ensures RingReady(l')
  {
    hide Consumed;
    hide Read;
  }

  lemma GatheredQueue(m: Store, q: seq<View>, acc: View, free: nat, s: seq<byte>, c: nat, roots: map<nat, nat>, rm: nat, len: nat)
    requires QueueOk(m, q, s, c, roots, rm, len) && q != [] && 0 < free && q[0].length <= free
    requires AccReady(m, acc, q, free) && acc.length == 0 && acc.base.mem != rm && acc.last == None
    ensures var h := Accumulated(m, q, acc, free);
            QueueOk(h.mem, h.queue, s, c, roots, rm, len) && SameShape(m, h.mem)
  {
    var g := Gathering(q, acc, m);
    var h := Gather(g, free);
    hide Holds;
    hide Linked;
    hide Rooted;
    hide AccReady;
    hide Gather;
    hide Total;
    AccumulateHolds(m, q, acc, free, s, c);
    AccumulateLinked(m, q, acc, free);
    GatherLengths(g, free);
    RootedGather(g, free, c, roots, rm, len);
    RootedCons(h.acc, h.queue, c, roots, rm, len);
  }

  /** Accumulating writes no memory that posted buffers show. */
  lemma GatherUnseen(g: Gathering, free: nat, q: seq<View>, s: seq<byte>, c: nat)
    requires Holds(g.mem, q, s, c) && SameShape(g.mem, Gather(g, free).mem)
    requires forall v :: v in q ==> v.base.mem != g.acc.base.mem
    ensures Holds(Gather(g, free).mem, q, s, c)
  {
    hide Gather;
    forall j | 0 <= j < |q|
      ensures Carries(Gather(g, free).mem, q[j], s, Starts(q, c)[j])
    {
      assert Carries(g.mem, q[j], s, Starts(q, c)[j]);
      GatherUnseenBy(g, free, q[j], s, Starts(q, c)[j]);
    }
  }

  lemma GatherUnseenBy(g: Gathering, free: nat, v: View, s: seq<byte>, p: nat)
    requires Carries(g.mem, v, s, p) && SameShape(g.mem, Gather(g, free).mem)
    requires v.base.mem != g.acc.base.mem
    ensures Carries(Gather(g, free).mem, v, s, p)
  {
    hide Gather;
    forall d {:trigger v.base.At(d)} | 0 <= d < v.offset + v.length && v.offset <= p + d
      ensures Peek(Gather(g, free).mem, v.base.At(d)) == s[p + d - v.offset]
    {
      GatherElsewhere(g, free, v.base.At(d));
    }
  }

  lemma GatheredKeeps(l: Link, l': Link, acc: View, free: nat, arrived: nat)
    requires InvAt(l, arrived) && Gathered(l, l', acc, free)
    ensures InvAt(l', arrived)
  {
    assert AccReady(l.mem, acc, l.queue, free) && acc.last == None;
    assert forall v :: v in l.flight ==> v.base.mem != acc.base.mem;
    hide AccReady;
    hide Gather;
    hide Roots;
    hide RingOk;
    hide Rooted;
    hide Holds;
    hide HonestFrom;
    hide Total;
    GatheredQueue(l.mem, l.queue, acc, free, l.sent[..arrived], |l.got|, Roots(l.ring, l.base), l.ringMem, l.ring.len);
    hide QueueOk;
    GatherUnseen(Gathering(l.queue, acc, l.mem), free, l.flight, l.sent, arrived);
    HonestShape(l.mem, l'.mem, l.flight, 0);
  }

  lemma GiveBackKeeps(l: Link, l': Link, i: nat, arrived: nat)
    requires InvAt(l, arrived) && GiveBack(l, l', i)
    ensures InvAt(l', arrived)
  {
    hide Holds;
    hide Linked;
    hide HonestFrom;
    hide Rooted;
    hide Acked;
    hide AckedBytes;
    hide Total;
    hide RingOk;
    GiveBackRoots(l.ring, l.base, i);
    hide Roots;
    hide Held;
    RootedGrow(l.queue, |l.got|, Roots(l.ring, l.base), Roots(l'.ring, l'.base), l.ringMem, l.ring.len);
    RootedGrow(l.flight, arrived, Roots(l.ring, l.base), Roots(l'.ring, l'.base), l.ringMem, l.ring.len);
  }

  lemma AllocateKeeps(l: Link, l': Link, k: nat, r: Region, arrived: nat)
    requires InvAt(l, arrived) && Allocate(l, l', k, r)
    ensures InvAt(l', arrived)
  {
    hide RingOk;
    hide Holds;
    hide Linked;
    hide HonestFrom;
    hide Rooted;
    hide Roots;
    hide Total;
    GrowUnseen(l.mem, k, r, l.queue, l.sent[..arrived], |l.got|);
    GrowUnseen(l.mem, k, r, l.flight, l.sent, arrived);
  }

  lemma GrowUnseen(m: Store, k: nat, r: Region, q: seq<View>, s: seq<byte>, c: nat)
    requires k !in m && Holds(m, q, s, c)
    ensures Holds(m[k := r], q, s, c)
    ensures Linked(m, q) ==> Linked(m[k := r], q)
    ensures HonestFrom(m, q, 0) ==> HonestFrom(m[k := r], q, 0)
  {
    forall j | 0 <= j < |q|
      ensures Carries(m[k := r], q[j], s, Starts(q, c)[j])
      ensures Honest(m, q[j]) ==> Honest(m[k := r], q[j])
    {
      assert Carries(m, q[j], s, Starts(q, c)[j]);
    }
  }

  lemma InitInv(l: Link)
    requires Init(l)
    ensures Inv(l)
  {
    assert l.sent[..0] == [];
  }

  lemma ArrivedIs(l: Link, arrived: nat)
    requires InvAt(l, arrived)
    ensures Inv(l) && l.Arrived() == arrived
  {
  }

  lemma NextKeeps(l: Link, l': Link)
    requires Inv(l) && Next(l, l')
    ensures Inv(l')
  {
    var arrived := l.Arrived();
    hide InvAt;
    hide Produce;
    hide Use;
    hide Gathered;
    hide GiveBack;
    hide Allocate;
    if data :| Produce(l, l', data) {
      ProduceKeeps(l, l', data, arrived);
      ArrivedIs(l', arrived);
    } else if Deliver(l, l') {
      DeliverKeeps(l, l', arrived);
      ArrivedIs(l', arrived + l.flight[0].length);
    } else if n :| Use(l, l', n) {
      UseKeeps(l, l', n, arrived);
      ArrivedIs(l', arrived);
    } else if acc, free :| Gathered(l, l', acc, free) {
      GatheredKeeps(l, l', acc, free, arrived);
      ArrivedIs(l', arrived);
    } else if i :| GiveBack(l, l', i) {
      GiveBackKeeps(l, l', i, arrived);
      ArrivedIs(l', arrived);
    } else {
      var k, r :| Allocate(l, l', k, r);
      AllocateKeeps(l, l', k, r, arrived);
      ArrivedIs(l', arrived);
    }
  }

  // ---------------------------------------------------------------- every run

  ghost predicate Run(r: seq<Link>) {
    && r != [] && Init(r[0])
    && forall i {:trigger r[i + 1]} :: 0 <= i < |r| - 1 ==> Next(r[i], r[i + 1])
  }

  lemma {:induction false} RunInv(r: seq<Link>)
    requires Run(r)
    ensures Inv(r[|r| - 1])
    decreases |r|
  {
    hide Next;
    hide Inv;
    if |r| == 1 {
      InitInv(r[0]);
    } else {
      var p := r[..|r| - 1];
      forall i {:trigger p[i + 1]} | 0 <= i < |p| - 1
        ensures Next(p[i], p[i + 1])
      {
        assert Next(r[i], r[i + 1]);
      }
      RunInv(p);
      var i := |r| - 2;
      assert Next(r[i], r[i + 1]);
      NextKeeps(r[i], r[i + 1]);
    }
  }

  /** The consumer has read a prefix of what the producer wrote, and the bytes it can still
      read from its queue and from posted buffers are exactly the rest, in order. */
  lemma Delivered(r: seq<Link>)
    requires Run(r)
    ensures var l := r[|r| - 1];
            l.sent == l.got + Contents(l.mem, l.queue) + Contents(l.mem, l.flight)
  {
    hide Next;
    RunInv(r);
    var l := r[|r| - 1];
    ContentsAreStream(l.mem, l.queue, l.sent[..l.Arrived()], |l.got|);
    ContentsAreStream(l.mem, l.flight, l.sent, l.Arrived());
    assert l.sent == l.sent[..l.Arrived()] + l.sent[l.Arrived()..];
    assert l.sent[..l.Arrived()] == l.sent[..|l.got|] + l.sent[..l.Arrived()][|l.got|..];
  }

  /** The region front() offers for writing overlaps no byte that a queued or posted view
      shows, nor the bytes of its memory before that, which un-stitching may show again. */
  lemma NoByteRecycledWhileReadable(r: seq<Link>, v: View, d: nat, e: nat)
    requires Run(r)
    requires var l := r[|r| - 1]; v in l.queue + l.flight && d < v.offset + v.length && e < l.ring.avail
    ensures var l := r[|r| - 1]; !Alias(l.mem, Address(l.ringMem, l.ring.write).At(e), v.base.At(d))
    ensures var l := r[|r| - 1]; v.base.mem == l.ringMem ==> v.base.pos + d < 2 * l.ring.len
  {
    hide Next;
    RunInv(r);
    var l := r[|r| - 1];
    if v in l.queue {
      var j :| 0 <= j < |l.queue| && l.queue[j] == v;
      var p := Starts(l.queue, |l.got|)[j];
      assert Carries(l.mem, l.queue[j], l.sent[..l.Arrived()], p);
      assert RootedAt(l.queue[j], p, Roots(l.ring, l.base), l.ringMem, l.ring.len);
      Apart(l, v, p, d, e);
    } else {
      var j :| 0 <= j < |l.flight| && l.flight[j] == v;
      var p := Starts(l.flight, l.Arrived())[j];
      assert Carries(l.mem, l.flight[j], l.sent, p);
      assert RootedAt(l.flight[j], p, Roots(l.ring, l.base), l.ringMem, l.ring.len);
      Apart(l, v, p, d, e);
    }
  }

  // ---------------------------------------------------------------- the marks of posted windows

  /** Only producing moves the mark, and from then on there is one. */
  lemma MarkStep(l: Link, l': Link)
    requires Inv(l) && Next(l, l')
    ensures l'.ringMem == l.ringMem && |l.sent| <= |l'.sent|
    ensures if |l.sent| == |l'.sent| then l'.ring.last == l.ring.last else l'.ring.last != None
  {
    hide Inv;
    hide Returned;
    hide Held;
    hide RingOk;
    hide Write;
    hide Read;
    hide Pushed;
    hide Consumed;
    hide Accumulated;
    hide AccReady;
    if i :| GiveBack(l, l', i) {
      assert RingOk(l.ring, l.base) by { RingOfInv(l); }
      ReturnKeeps(l.ring, l.base, i);
    }
  }

  lemma RingOfInv(l: Link)
    requires Inv(l)
    ensures RingOk(l.ring, l.base)
  {
    hide RingOk;
    hide QueueOk;
    hide FlightOk;
  }

  lemma {:induction false} MarkStays(r: seq<Link>, i: nat, j: nat)
    requires Run(r) && i <= j < |r|
    ensures r[j].ringMem == r[i].ringMem && |r[i].sent| <= |r[j].sent|
    ensures if |r[i].sent| == |r[j].sent| then r[j].ring.last == r[i].ring.last else r[j].ring.last != None
    decreases j - i
  {
    hide Next;
    hide Inv;
    if i < j {
      var k := j - 1;
      MarkStays(r, i, k);
      RunInv(r[..j]);
      assert Next(r[k], r[k + 1]);
      MarkStep(r[k], r[k + 1]);
    }
  }

  /** However the ring wraps and whatever comes back between, of two windows produced one after
      the other the second is marked with the end of the first: a queue joins them, unless the
      first is the very first of the run, which has no mark. */
  lemma WindowsFollow(r: seq<Link>, i: nat, j: nat, a: seq<byte>, b: seq<byte>)
    requires Run(r) && i < j < |r| - 1 && Produce(r[i], r[i + 1], a) && Produce(r[j], r[j + 1], b)
    requires r[j].sent == r[i + 1].sent
    ensures r[i + 1].flight != [] && r[j + 1].flight != []
    ensures var x, y := r[i + 1].flight[|r[i + 1].flight| - 1], r[j + 1].flight[|r[j + 1].flight| - 1];
      && y.last == Some(x.End()) && (x.last == None <==> r[i].sent == [])
      && (Follows(x, y) <==> r[i].sent != [])
  {
    assert r[j].ringMem == r[i + 1].ringMem && r[j].ring.last == r[i + 1].ring.last by {
      MarkStays(r, i + 1, j);
    }
    assert r[i].ring.last == None <==> r[i].sent == [] by {
      MarkStays(r, 0, i);
    }
    hide Run;
    hide Write;
  }
}
