/** The default output pool, which keeps handing out a buffer that is not yet half used. */
module OutputQueues {
  import opened Results
  import opened Memory

  /** last: where the previously issued window of this buffer ended. */
  datatype Buff = Buff(id: nat, size: nat, offset: nat, length: nat, last: Option<nat>)

  /** A window sent downstream. */
  datatype Issued = Issued(id: nat, offset: nat, length: nat, last: Option<nat>)

  function AsIssued(b: Buff): Issued {
    Issued(b.id, b.offset, b.length, b.last)
  }

  /** BufferQueuePool::pop. */
  function PoolPopped(q: seq<Buff>): seq<Buff>
    requires q != []
  {
    if q[0].offset > q[0].size / 2 then q[1..]
    else [q[0].(last := Some(q[0].offset))] + q[1..]
  }

  /** A buffer after n of its bytes are posted. */
  function Moved(b: Buff, n: nat): Buff {
    b.(offset := b.offset + n, length := 0)
  }

  // ---------------------------------------------------------------- one buffer between returns

  /** The windows issued from one buffer by posting the given lengths while it stays in the
      pool. */
  function Windows(b: Buff, lengths: seq<nat>): seq<Issued>
    decreases |lengths|
  {
    if lengths == [] then []
    else
      var left := PoolPopped([Moved(b, lengths[0])]);
      [AsIssued(b.(length := lengths[0]))] + if left == [] then [] else Windows(left[0], lengths[1..])
  }

  /** Each length fits what is left of the buffer when it is posted. */
  predicate Fit(b: Buff, lengths: seq<nat>)
    decreases |lengths|
  {
    lengths != [] ==> b.offset + lengths[0] <= b.size && Fit(Moved(b, lengths[0]), lengths[1..])
  }

  /** They are in order and contiguous, each marked with the end of the one before, so that
      stitching rejoins them, and none leaves the buffer. */
  lemma {:induction false} WindowsContiguous(b: Buff, lengths: seq<nat>)
    requires Fit(b, lengths) && b.offset <= b.size
    ensures var w := Windows(b, lengths);
            && |w| <= |lengths|
            && (forall k :: 0 <= k < |w| ==> w[k].id == b.id && w[k].length == lengths[k] && w[k].offset + w[k].length <= b.size)
            && (w != [] ==> w[0].offset == b.offset && w[0].last == b.last)
            && (forall k {:trigger w[k]} :: 1 <= k < |w| ==>
                  w[k].offset == w[k - 1].offset + w[k - 1].length && w[k].last == Some(w[k].offset))
    decreases |lengths|
  {
    if lengths != [] {
      var next := Moved(b, lengths[0]);
      var w := Windows(b, lengths);
      if next.offset <= next.size / 2 {
        var rest := Windows(next.(last := Some(next.offset)), lengths[1..]);
        FitLast(next, lengths[1..], Some(next.offset));
        WindowsContiguous(next.(last := Some(next.offset)), lengths[1..]);
        assert w == [AsIssued(b.(length := lengths[0]))] + rest;
        forall k {:trigger w[k]} | 1 <= k < |w|
          ensures w[k].offset == w[k - 1].offset + w[k - 1].length && w[k].last == Some(w[k].offset)
        {
          assert w[k] == rest[k - 1];
          if k > 1 { assert w[k - 1] == rest[k - 2]; }
        }
      }
    }
  }

  lemma {:induction false} FitLast(b: Buff, lengths: seq<nat>, last: Option<nat>)
    requires Fit(b, lengths)
    ensures Fit(b.(last := last), lengths)
    decreases |lengths|
  {
    if lengths != [] { FitLast(Moved(b, lengths[0]), lengths[1..], last); }
  }

  /** Two windows of one buffer between returns share no byte. */
  lemma {:induction false} WindowsDisjoint(b: Buff, lengths: seq<nat>, j: nat, k: nat)
    requires Fit(b, lengths) && b.offset <= b.size && j < k < |Windows(b, lengths)|
    ensures Windows(b, lengths)[j].offset + Windows(b, lengths)[j].length <= Windows(b, lengths)[k].offset
    decreases k
  {
    WindowsContiguous(b, lengths);
    hide Windows;
    hide Fit;
    var w := Windows(b, lengths);
    assert w[k].offset == w[k - 1].offset + w[k - 1].length;
    if j < k - 1 { WindowsDisjoint(b, lengths, j, k - 1); }
  }

  // ---------------------------------------------------------------- progress

  /** Room left for work in a buffer. */
  function Room(b: Buff): int {
    b.size - b.offset - b.length
  }

  /** What every buffer in a pool looks like between calls, when the pool's buffers have size
      bytes and work posts whole items. */
  predicate Pooled(q: seq<Buff>, size: nat, item: nat)
    requires item > 0
  {
    forall b :: b in q ==> b.size == size && b.length == 0 && b.offset <= size / 2 && b.offset % item == 0
  }

  /** Posting and popping keep that. */
  lemma PoppedPooled(q: seq<Buff>, size: nat, item: nat, n: nat)
    requires item > 0 && Pooled(q, size, item) && q != [] && n <= size - q[0].offset && n % item == 0
    ensures Pooled(PoolPopped([Moved(q[0], n)] + q[1..]), size, item)
  {
    var r := [Moved(q[0], n)] + q[1..];
    assert r[1..] == q[1..];
    assert q[0] in q;
    SumOfMultiples(q[0].offset, n, item);
  }

  lemma SumOfMultiples(a: nat, b: nat, item: nat)
    requires item > 0 && a % item == 0 && b % item == 0
    ensures (a + b) % item == 0
  {
    Quotient(b, item);
    ModPeriod(a, b / item, item);
  }

  lemma Quotient(n: nat, item: nat)
    requires item > 0
    ensures n == n / item * item + n % item
  {
  }

  /** Back: a buffer returns, reset. Post: work fills items of the front buffer and it is
      posted. */
  datatype PoolStep = Back(id: nat) | Post(items: nat)

  /** Work is called only when the reserve fits, and fills no more than the buffer. */
  predicate Possible(q: seq<Buff>, t: PoolStep, item: nat, reserve: nat) {
    match t
    case Back(_) => true
    case Post(items) => q != [] && 0 < items && Room(q[0]) >= reserve && items * item <= Room(q[0])
  }

  function After(q: seq<Buff>, t: PoolStep, size: nat, item: nat, reserve: nat): seq<Buff>
    requires Possible(q, t, item, reserve)
  {
    match t
    case Back(id) => q + [Buff(id, size, 0, 0, None)]
    case Post(items) => PoolPopped([Moved(q[0], items * item)] + q[1..])
  }

  predicate AllPossible(q: seq<Buff>, ts: seq<PoolStep>, size: nat, item: nat, reserve: nat)
    decreases |ts|
  {
    ts != [] ==>
      && Possible(q, ts[0], item, reserve)
      && AllPossible(After(q, ts[0], size, item, reserve), ts[1..], size, item, reserve)
  }

  function AfterAll(q: seq<Buff>, ts: seq<PoolStep>, size: nat, item: nat, reserve: nat): seq<Buff>
    requires AllPossible(q, ts, size, item, reserve)
    decreases |ts|
  {
    if ts == [] then q else AfterAll(After(q, ts[0], size, item, reserve), ts[1..], size, item, reserve)
  }

  /** There is a buffer, but too little of it is left for work to be called. */
  predicate Starved(q: seq<Buff>, reserve: nat) {
    q != [] && Room(q[0]) < reserve
  }

  /** The most of a buffer that can be used up while it stays in the pool. */
  function MostUsed(size: nat, item: nat): nat
    requires item > 0
  {
    size / 2 / item * item
  }

  lemma {:induction false} RunPooled(q: seq<Buff>, ts: seq<PoolStep>, size: nat, item: nat, reserve: nat)
    requires item > 0 && Pooled(q, size, item) && AllPossible(q, ts, size, item, reserve)
    ensures Pooled(AfterAll(q, ts, size, item, reserve), size, item)
    decreases |ts|
  {
    if ts != [] {
      StepPooled(q, ts[0], size, item, reserve);
      RunPooled(After(q, ts[0], size, item, reserve), ts[1..], size, item, reserve);
    }
  }

  lemma StepPooled(q: seq<Buff>, t: PoolStep, size: nat, item: nat, reserve: nat)
    requires item > 0 && Pooled(q, size, item) && Possible(q, t, item, reserve)
    ensures Pooled(After(q, t, size, item, reserve), size, item)
  {
    if t.Post? {
      assert q[0] in q;
      ModPeriod(0, t.items, item);
      PoppedPooled(q, size, item, t.items * item);
    }
  }

  /** A multiple of item up to the half is at most MostUsed. */
  lemma UsedAtMost(offset: nat, size: nat, item: nat)
    requires item > 0 && offset % item == 0 && offset <= size / 2
    ensures offset <= MostUsed(size, item)
  {
    var k, m, half := offset / item, size / 2 / item, size / 2;
    Quotient(offset, item);
    Quotient(half, item);
    MultipleAtMost(offset, k, m, half % item, item);
  }

  lemma MultipleAtMost(offset: nat, k: nat, m: nat, rest: nat, item: nat)
    requires offset == k * item && offset <= m * item + rest && rest < item
    ensures offset <= m * item
  {
    if k > m {
      assert k * item == m * item + (k - m) * item;
      MulAtLeast(k - m, item);
    }
  }

  /** Enough room always, when the reserve fits in what is left of a buffer used that far. */
  lemma PooledHasRoom(q: seq<Buff>, size: nat, item: nat, reserve: nat)
    requires item > 0 && Pooled(q, size, item) && reserve <= size - MostUsed(size, item)
    ensures !Starved(q, reserve)
  {
    if q != [] {
      assert q[0] in q;
      UsedAtMost(q[0].offset, size, item);
    }
  }

  /** The steps that starve the pool when it does not: one buffer, used that far by one call. */
  function StarvingSteps(size: nat, item: nat, reserve: nat): seq<PoolStep>
    requires item > 0
  {
    if reserve > size then [Back(0)] else [Back(0), Post(size / 2 / item)]
  }

  lemma StarvingRun(size: nat, item: nat, reserve: nat)
    requires item > 0 && reserve > size - MostUsed(size, item)
    ensures var ts := StarvingSteps(size, item, reserve);
      AllPossible([], ts, size, item, reserve) && Starved(AfterAll([], ts, size, item, reserve), reserve)
  {
    var unused, k := Buff(0, size, 0, 0, None), size / 2 / item;
    var q := [unused];
    assert [] + q == q;
    if reserve > size {
      assert [Back(0)][1..] == [];
      assert AllPossible(q, [], size, item, reserve);
    } else {
      StarvingPost(unused, k, size, item, reserve);
      assert [Back(0), Post(k)][1..] == [Post(k)];
    }
  }

  lemma StarvingPost(b: Buff, k: nat, size: nat, item: nat, reserve: nat)
    requires item > 0 && k == size / 2 / item && b.size == size && b.offset == 0 && b.length == 0
    requires size - MostUsed(size, item) < reserve <= size
    ensures AllPossible([b], [Post(k)], size, item, reserve)
    ensures Starved(AfterAll([b], [Post(k)], size, item, reserve), reserve)
  {
    assert k * item <= size / 2;
    assert [b][1..] == [] && [Post(k)][1..] == [] && [Moved(b, k * item)] + [] == [Moved(b, k * item)];
    assert [Moved(b, k * item)][1..] == [];
    var z := After([b], Post(k), size, item, reserve);
    assert z == [Moved(b, k * item).(last := Some(k * item))];
    assert AllPossible(z, [], size, item, reserve);
  }

  predicate Run(ts: seq<PoolStep>, size: nat, item: nat, reserve: nat) {
    AllPossible([], ts, size, item, reserve)
  }

  function Reached(ts: seq<PoolStep>, size: nat, item: nat, reserve: nat): seq<Buff>
    requires Run(ts, size, item, reserve)
  {
    AfterAll([], ts, size, item, reserve)
  }

  /** In every run from an empty pool, whole items posted: a non-empty pool always has room for
      the reserve if and only if the reserve fits in what is left of a buffer used as far as
      it can be while it stays. */
  lemma PoolNeverStarves(size: nat, item: nat, reserve: nat)
    requires item > 0
    ensures (forall ts :: Run(ts, size, item, reserve) ==> !Starved(Reached(ts, size, item, reserve), reserve))
            <==> reserve <= size - MostUsed(size, item)
  {
    if reserve <= size - MostUsed(size, item) {
      forall ts | Run(ts, size, item, reserve)
        ensures !Starved(Reached(ts, size, item, reserve), reserve)
      {
        RunPooled([], ts, size, item, reserve);
        PooledHasRoom(Reached(ts, size, item, reserve), size, item, reserve);
      }
    } else {
      StarvingRun(size, item, reserve);
      assert Run(StarvingSteps(size, item, reserve), size, item, reserve);
    }
  }

  /** And a starved pool stays starved, however many buffers come back. */
  lemma {:induction false} StarvedForGood(q: seq<Buff>, ts: seq<PoolStep>, size: nat, item: nat, reserve: nat)
    requires Starved(q, reserve) && AllPossible(q, ts, size, item, reserve)
    ensures Starved(AfterAll(q, ts, size, item, reserve), reserve)
    decreases |ts|
  {
    if ts != [] {
      StarvedForGood(After(q, ts[0], size, item, reserve), ts[1..], size, item, reserve);
    }
  }

  // ---------------------------------------------------------------- the pool

  class BufferQueuePool {
    var queue: seq<Buff>

    constructor ()
      ensures queue == []
    {
      queue := [];
    }

    method Pop() returns (ok: bool)
      modifies this
      ensures ok <==> old(queue) != []
      ensures ok ==> queue == PoolPopped(old(queue))
      ensures !ok ==> queue == old(queue)
    {
      if queue == [] { return false; }
      var buff := queue[0];
      if buff.offset > buff.size / 2 {
        queue := queue[1..];
      } else {
        queue := queue[0 := buff.(last := Some(buff.offset))];
      }
      ok := true;
    }

    /** A buffer whose token is another queue's is not kept; one of its own that carries a
        ring's chunk number fails an assertion. */
    method Push(buff: Buff, mine: bool, numbered: bool) returns (ok: bool)
      modifies this
      ensures ok <==> !(mine && numbered)
      ensures queue == if mine && !numbered then old(queue) + [buff] else old(queue)
    {
      if !mine { return true; }
      if numbered { return false; }
      queue := queue + [buff];
      ok := true;
    }
  }
}
