/** The auxiliary buffers of one input port (SimpleBufferQueue): a free list that a token
    callback refills whenever the last handle to one of its buffers is dropped. */
module AuxPool {
  import opened Results
  import opened Memory
  import opened Views

  /** free: buffers in the list. owned: every buffer the token takes back. held: buffers
      that some handle outside the port's queue refers to. size: bytes per buffer. */
  datatype Pool = Pool(free: seq<View>, owned: set<nat>, held: set<nat>, size: nat)

  /** A buffer as the token hands it back. */
  function Whole(k: nat): View {
    View(k, Address(k, 0), 0, 0, None)
  }

  predicate InUse(q: seq<View>, k: nat) {
    exists v :: v in q && v.base.mem == k
  }

  /** The pool after the queue drops its handle v and keeps the handles in rest. */
  function Freed(p: Pool, v: View, rest: seq<View>): (r: Pool)
    ensures r.size == p.size && r.owned == p.owned && r.held == p.held
  {
    var k := v.base.mem;
    if k in p.owned && k !in p.held && !InUse(rest, k) then
      p.(free := p.free + [Whole(k)])
    else p
  }

  /** v is a window into a pool buffer. */
  ghost predicate Shaped(m: Store, v: View, size: nat) {
    && v.buf == v.base.mem && v.base.pos == 0
    && v.buf in m && m[v.buf].Flat? && |m[v.buf].cells| == size
  }

  /** Free buffers are whole, distinct, and referred to by nobody. */
  ghost predicate PoolOk(m: Store, q: seq<View>, p: Pool) {
    && p.size > 0
    && p.held <= m.Keys
    && (forall k :: k in p.owned ==> Shaped(m, Whole(k), p.size))
    && (forall a :: a in p.free ==> a == Whole(a.buf) && a.buf in p.owned && a.buf !in p.held)
    && (forall i, j :: 0 <= i < j < |p.free| ==> p.free[i] != p.free[j])
    && (forall v :: v in q && v.base.mem in p.owned ==> Shaped(m, v, p.size))
    && (forall a, v :: a in p.free && v in q ==> a.base.mem != v.base.mem)
  }

  /** acc is a window from the start of a pool buffer that is neither free, nor queued, nor
      referred to elsewhere. */
  ghost predicate TakenOut(m: Store, q: seq<View>, p: Pool, acc: View) {
    && acc.last == None && acc.offset == 0
    && Shaped(m, acc, p.size) && acc.buf in p.owned && acc.buf !in p.held
    && (forall a :: a in p.free ==> a.buf != acc.buf)
    && (forall v :: v in q ==> v.base.mem != acc.buf)
  }

  ghost predicate Aligned(q: seq<View>, item: nat) {
    if item == 0 then q == [] else forall v :: v in q ==> v.length % item == 0
  }

  /** What the copy loop of accumulate keeps about buffers and item boundaries. */
  ghost predicate Copying(g: Gathering, free: nat, p: Pool, item: nat) {
    && item > 0
    && PoolOk(g.mem, g.queue, p) && TakenOut(g.mem, g.queue, p, g.acc)
    && Aligned(g.queue, item) && free % item == 0 && g.acc.length % item == 0
  }

  /** The pool after one copy round. */
  function PoolStep(g: Gathering, free: nat, p: Pool): Pool
    requires g.queue != []
  {
    if g.queue[0].length <= free then Freed(p, g.queue[0], g.queue[1..]) else p
  }

  lemma AlignedDifference(a: nat, b: nat, item: nat)
    requires item > 0 && b <= a && a % item == 0 && b % item == 0
    ensures (a - b) % item == 0
  {
    var x, y := a / item, b / item;
    assert a - b == (x - y) * item;
    assert x >= y;
    ModPeriod(0, x - y, item);
  }

  lemma AlignedSum(a: nat, b: nat, item: nat)
    requires item > 0 && a % item == 0 && b % item == 0
    ensures (a + b) % item == 0
  {
    var x, y := a / item, b / item;
    assert a + b == (x + y) * item;
    ModPeriod(0, x + y, item);
  }

  lemma CopyLengths(q: seq<View>, taken: nat, free: nat, item: nat)
    requires item > 0 && q != [] && Aligned(q, item) && free % item == 0 && taken % item == 0
    ensures var n := Min(q[0].length, free);
            (taken + n) % item == 0 && (free - n) % item == 0 && (q[0].length - n) % item == 0
  {
    assert q[0] in q;
    var n := Min(q[0].length, free);
    AlignedSum(taken, n, item);
    AlignedDifference(free, n, item);
    AlignedDifference(q[0].length, n, item);
  }

  lemma PoolShape(m: Store, m': Store, q: seq<View>, p: Pool, acc: View)
    requires SameShape(m, m') && PoolOk(m, q, p) && TakenOut(m, q, p, acc)
    ensures PoolOk(m', q, p) && TakenOut(m', q, p, acc)
  {
  }

  /** Editing the front's window and mark concerns no pool rule. */
  lemma FrontEdited(m: Store, q: seq<View>, f: View, p: Pool, item: nat)
    requires q != [] && f.buf == q[0].buf && f.base == q[0].base && item > 0 && f.length % item == 0
    requires PoolOk(m, q, p) && Aligned(q, item)
    ensures PoolOk(m, [f] + q[1..], p) && Aligned([f] + q[1..], item)
    ensures forall acc :: TakenOut(m, q, p, acc) ==> TakenOut(m, [f] + q[1..], p, acc)
  {
    assert q[0] in q;
    assert forall v :: v in [f] + q[1..] ==> v == f || v in q;
  }

  lemma FrontDropped(m: Store, q: seq<View>, p: Pool, item: nat)
    requires q != [] && PoolOk(m, q, p)
    ensures PoolOk(m, q[1..], Freed(p, q[0], q[1..]))
    ensures Aligned(q, item) ==> Aligned(q[1..], item)
    ensures forall acc :: TakenOut(m, q, p, acc) ==> TakenOut(m, q[1..], Freed(p, q[0], q[1..]), acc)
  {
  }

  lemma CopyingStep(g: Gathering, free: nat, p: Pool, item: nat)
    requires Copying(g, free, p, item) && g.queue != []
    ensures Copying(GatherStep(g, free), free - Min(g.queue[0].length, free), PoolStep(g, free, p), item)
  {
    hide Write;
    hide Read;
    var n, h := Min(g.queue[0].length, free), GatherStep(g, free);
    CopyLengths(g.queue, g.acc.length, free, item);
    WriteShape(g.mem, g.acc.End(), Read(g.mem, g.queue[0].Get(0), n));
    PoolShape(g.mem, h.mem, g.queue, p, g.acc);
    if n == g.queue[0].length {
      FrontDropped(h.mem, g.queue, p, item);
    } else {
      FrontEdited(h.mem, g.queue, h.queue[0], p, item);
      assert h.queue == [h.queue[0]] + g.queue[1..];
    }
    hide PoolOk;
    assert TakenOut(h.mem, h.queue, PoolStep(g, free, p), h.acc);
  }

  lemma CopyingDone(g: Gathering, free: nat, p: Pool, item: nat)
    requires Copying(g, free, p, item)
    ensures Copying(g, 0, p, item)
  {
    DivModUnique(0, item, 0, 0);
  }

  /** The front of a non-empty free list can be filled. */
  lemma TakeFree(m: Store, q: seq<View>, p: Pool)
    requires PoolOk(m, q, p) && p.free != []
    ensures PoolOk(m, q, p.(free := p.free[1..])) && TakenOut(m, q, p.(free := p.free[1..]), p.free[0])
    ensures p.free[0] == Whole(p.free[0].buf)
    ensures AccReady(m, p.free[0], q, p.size)
  {
    assert p.free[0] in p.free;
    forall a | a in p.free[1..]
      ensures a.buf != p.free[0].buf
    {
      var i :| 1 <= i < |p.free| && p.free[i] == a;
      assert p.free[0] != p.free[i];
    }
  }

  lemma AccLess(m: Store, acc: View, q: seq<View>, size: nat, free: nat)
    requires AccReady(m, acc, q, size) && free <= size
    ensures AccReady(m, acc, q, free)
  {
  }

  /** A filled buffer may be queued. */
  lemma PutFront(m: Store, q: seq<View>, p: Pool, acc: View, item: nat)
    requires PoolOk(m, q, p) && TakenOut(m, q, p, acc)
    requires item > 0 && Aligned(q, item) && acc.length % item == 0
    ensures PoolOk(m, [acc] + q, p) && Aligned([acc] + q, item)
  {
  }

  /** The pool's rules are about whose memory is queued, not about windows. */
  lemma SameBases(m: Store, q: seq<View>, r: seq<View>, p: Pool)
    requires PoolOk(m, q, p)
    requires forall v :: v in r ==> exists w :: w in q && v.base == w.base && v.buf == w.buf
    ensures PoolOk(m, r, p)
  {
  }

  /** Stitching moves windows only, by whole items. */
  ghost predicate Rewindowed(q: seq<View>, r: seq<View>) {
    |r| == |q| && forall i :: 0 <= i < |q| ==> r[i].base == q[i].base && r[i].buf == q[i].buf
  }

  lemma StitchPairPool(q: seq<View>, j: nat, item: nat)
    requires 1 <= j < |q| && item > 0 && Aligned(q, item)
    ensures Aligned(StitchPair(q, j), item) && Rewindowed(q, StitchPair(q, j))
  {
    var r := StitchPair(q, j);
    assert q[j] in q && q[j - 1] in q;
    AlignedSum(q[j - 1].length, q[j].length, item);
    DivModUnique(0, item, 0, 0);
    forall v | v in r
      ensures v.length % item == 0
    {
      var i :| 0 <= i < |r| && r[i] == v;
      if i != j && i != j - 1 { assert q[i] in q && v == q[i]; }
    }
  }

  lemma {:induction false} StitchDownPool(q: seq<View>, j: nat, item: nat)
    requires (j < |q| || j == 0) && item > 0 && Aligned(q, item)
    ensures Aligned(StitchDown(q, j), item) && Rewindowed(q, StitchDown(q, j))
    decreases j
  {
    hide Aligned;
    if j > 0 {
      StitchPairPool(q, j, item);
      StitchDownPool(StitchPair(q, j), j - 1, item);
    }
  }

  lemma AppendPool(m: Store, q: seq<View>, v: View, p: Pool, item: nat)
    requires PoolOk(m, q, p) && item > 0 && Aligned(q, item) && v.length % item == 0
    requires Admits(m, p, v)
    ensures PoolOk(m, q + [v], p) && Aligned(q + [v], item)
  {
  }

  lemma DropPool(q: seq<View>, z: seq<View>, item: nat)
    requires |z| >= 2 && Rewindowed(q, z) && Aligned(z, item)
    ensures var r := DropStitchedBack(z);
            && Aligned(r, item)
            && forall x :: x in r ==> exists y :: y in q && x.base == y.base && x.buf == y.buf
  {
    var r := DropStitchedBack(z);
    forall x | x in r
      ensures x in z && exists y :: y in q && x.base == y.base && x.buf == y.buf
    {
      var i :| 0 <= i < |r| && r[i] == x;
      assert z[i] == x && q[i] in q;
    }
  }

  /** Pushing keeps item boundaries and admits no free buffer. */
  lemma PushedPool(m: Store, q: seq<View>, v: View, p: Pool, item: nat)
    requires PoolOk(m, q, p) && item > 0 && Aligned(q, item) && v.length % item == 0
    requires Admits(m, p, v)
    ensures PoolOk(m, Pushed(q, v), p) && Aligned(Pushed(q, v), item)
  {
    hide PoolOk;
    hide Aligned;
    hide Rewindowed;
    hide DropStitchedBack;
    if v.length > 0 {
      var w := q + [v];
      AppendPool(m, q, v, p, item);
      if q == [] {
        assert w == [v];
      } else {
        StitchDownPool(w, |q|, item);
        DropPool(w, StitchDown(w, |q|), item);
        SameBases(m, w, Pushed(q, v), p);
      }
    }
  }

  lemma ShortenedPool(m: Store, q: seq<View>, p: Pool, item: nat, items: nat)
    requires PoolOk(m, q, p) && Aligned(q, item) && q != [] && items * item <= q[0].length
    ensures var bytes, f := items * item, Advanced(q[0], items * item);
            && PoolOk(m, Shortened(q, bytes), if f.length == 0 then Freed(p, f, q[1..]) else p)
            && Aligned(Shortened(q, bytes), item)
  {
    var bytes, f := items * item, Advanced(q[0], items * item);
    assert q[0] in q;
    ModPeriod(0, items, item);
    AlignedDifference(q[0].length, bytes, item);
    FrontDropped(m, q, p, item);
    if f.length > 0 { FrontEdited(m, q, f, p, item); }
  }

  lemma UnstitchedPool(m: Store, q: seq<View>, p: Pool, item: nat)
    requires PoolOk(m, q, p) && Aligned(q, item) && |q| >= 2 && Unstitched(q) != q
    ensures PoolOk(m, Unstitched(q), Freed(p, q[0], Unstitched(q))) && Aligned(Unstitched(q), item)
  {
    var r, tail := Unstitched(q), q[1..];
    assert q[0] in q && q[1] in q;
    AlignedSum(q[1].length, q[0].length, item);
    FrontDropped(m, q, p, item);
    assert r == [r[0]] + tail[1..];
    assert InUse(r, q[0].base.mem) == InUse(tail, q[0].base.mem) by {
      assert tail[0] in tail && r[0] in r;
      assert forall w :: w in r ==> w == r[0] || w in tail;
      assert forall w :: w in tail ==> w == tail[0] || w in r;
    }
    FrontEdited(m, tail, r[0], Freed(p, q[0], tail), item);
  }

  /** A buffer may be pushed when it is not a free one, and a pool buffer is pushed whole. */
  ghost predicate Admits(m: Store, p: Pool, v: View) {
    && (forall a :: a in p.free ==> a.base.mem != v.base.mem)
    && (v.base.mem in p.owned ==> Shaped(m, v, p.size))
  }

  /** allocate_one: a new buffer that its own token puts in the list. */
  lemma Grow(m: Store, k: nat, q: seq<View>, p: Pool)
    requires k !in m && PoolOk(m, q, p) && forall v :: v in q ==> v.base.mem in m
    ensures PoolOk(m[k := Flat(seq(p.size, _ => 0))], q, p.(free := p.free + [Whole(k)], owned := p.owned + {k}))
  {
    assert forall a :: a in p.free ==> a.buf in m;
  }

  // ---------------------------------------------------------------- no buffer is lost

  /** Every buffer the token takes back is in the list, referred to outside, or queued. */
  ghost predicate NoneLost(q: seq<View>, p: Pool) {
    forall k :: k in p.owned ==> k in p.held || InUse(q, k) || Whole(k) in p.free
  }

  lemma DroppedKept(q: seq<View>, p: Pool)
    requires q != []
    ensures NoneLost(q, p) ==> NoneLost(q[1..], Freed(p, q[0], q[1..]))
  {
    var p' := Freed(p, q[0], q[1..]);
    forall k ensures InUse(q, k) ==> InUse(q[1..], k) || k == q[0].base.mem {
    }
    assert forall k :: Whole(k) in p.free ==> Whole(k) in p'.free;
  }

  /** The same with the accumulation buffer in hand. */
  lemma DroppedBeside(q: seq<View>, p: Pool, acc: View)
    requires q != [] && NoneLost([acc] + q, p) && acc.base.mem != q[0].base.mem
    ensures NoneLost([acc] + q[1..], Freed(p, q[0], q[1..]))
  {
    var p' := Freed(p, q[0], q[1..]);
    forall k ensures InUse([acc] + q, k) ==> InUse([acc] + q[1..], k) || k == q[0].base.mem {
      InUseCons(acc, q, k);
      InUseCons(acc, q[1..], k);
    }
    assert !InUse(q[1..], q[0].base.mem) ==> !InUse([acc] + q[1..], q[0].base.mem) by {
      InUseCons(acc, q[1..], q[0].base.mem);
    }
    assert forall k :: Whole(k) in p.free ==> Whole(k) in p'.free;
    forall k | k in p'.owned ensures k in p'.held || InUse([acc] + q[1..], k) || Whole(k) in p'.free {
      InUseCons(acc, q[1..], k);
    }
  }

  /** A round of the copy loop. */
  lemma GatheredKept(g: Gathering, free: nat, p: Pool, item: nat)
    requires Copying(g, free, p, item) && g.queue != [] && NoneLost([g.acc] + g.queue, p)
    ensures var h := GatherStep(g, free); NoneLost([h.acc] + h.queue, PoolStep(g, free, p)) && h.acc.base == g.acc.base
  {
    var h := GatherStep(g, free);
    assert g.queue[0] in g.queue && g.queue[0].base.mem != g.acc.base.mem;
    hide NoneLost;
    hide Write;
    hide Read;
    if g.queue[0].length <= free {
      DroppedBeside(g.queue, p, g.acc);
      RewindowedKept([g.acc] + g.queue[1..], [h.acc] + h.queue, PoolStep(g, free, p));
    } else {
      RewindowedKept([g.acc] + g.queue, [h.acc] + h.queue, p);
    }
  }

  lemma UnstitchedKept(q: seq<View>, p: Pool)
    requires Unstitched(q) != q && NoneLost(q, p)
    ensures NoneLost(Unstitched(q), Freed(p, q[0], Unstitched(q)))
  {
    var w := [q[0]] + Unstitched(q);
    RewindowedKept(q, w, p);
    DroppedKept(w, p);
    assert w[1..] == Unstitched(q);
  }

  lemma InUseCons(v: View, q: seq<View>, k: nat)
    ensures InUse([v] + q, k) <==> InUse(q, k) || k == v.base.mem
  {
    assert v in [v] + q && forall w :: w in q ==> w in [v] + q;
  }

  lemma InUseBehind(q: seq<View>, v: View, k: nat)
    ensures InUse(q + [v], k) <==> InUse(q, k) || k == v.base.mem
  {
    assert v in q + [v] && forall w :: w in q ==> w in q + [v];
  }

  /** Views that move within their buffers keep them. */
  lemma RewindowedKept(q: seq<View>, r: seq<View>, p: Pool)
    requires NoneLost(q, p) && Rewindowed(q, r)
    ensures NoneLost(r, p)
  {
    forall k | InUse(q, k) ensures InUse(r, k) {
      var v :| v in q && v.base.mem == k;
      var i :| 0 <= i < |q| && q[i] == v;
      assert r[i] in r;
    }
  }

  lemma TakenKept(q: seq<View>, p: Pool)
    requires p.free != [] && NoneLost(q, p) && p.free[0] == Whole(p.free[0].buf)
    ensures NoneLost([p.free[0]] + q, p.(free := p.free[1..])) && NoneLost(q + [p.free[0]], p.(free := p.free[1..]))
  {
    forall k ensures InUse([p.free[0]] + q, k) <==> InUse(q, k) || k == p.free[0].buf {
      InUseCons(p.free[0], q, k);
    }
    forall k ensures InUse(q + [p.free[0]], k) <==> InUse(q, k) || k == p.free[0].buf {
      InUseBehind(q, p.free[0], k);
    }
    assert forall k :: Whole(k) in p.free ==> Whole(k) == p.free[0] || Whole(k) in p.free[1..];
  }

  /** A push that adds bytes loses no buffer, and a stitched back view only another handle to
      the buffer before it. */
  lemma FilledKept(q: seq<View>, p: Pool, n: nat)
    requires p.free != [] && p.free[0] == Whole(p.free[0].buf)
    ensures NoneLost(q, p) ==> NoneLost(q + [p.free[0].(length := n)], p.(free := p.free[1..]))
  {
    if NoneLost(q, p) {
      TakenKept(q, p);
      hide NoneLost;
      var v := p.free[0].(length := n);
      RewindowedKept(q + [p.free[0]], q + [v], p.(free := p.free[1..]));
    }
  }

  lemma PushedKept(q: seq<View>, v: View, p: Pool)
    requires NoneLost(q + [v], p) && v.length > 0
    ensures NoneLost(Pushed(q, v), p)
  {
    var w := q + [v];
    if q == [] {
      assert w == [v];
    } else {
      StitchDownRewindows(w, |q|);
      RewindowedKept(w, StitchDown(w, |q|), p);
      BackKept(StitchDown(w, |q|), p);
    }
  }

  lemma {:induction false} StitchDownRewindows(q: seq<View>, j: nat)
    requires j < |q| || j == 0
    ensures Rewindowed(q, StitchDown(q, j))
    decreases j
  {
    if j > 0 {
      StitchDownRewindows(StitchPair(q, j), j - 1);
    }
  }

  lemma BackKept(z: seq<View>, p: Pool)
    requires |z| >= 2 && NoneLost(z, p)
    ensures NoneLost(DropStitchedBack(z), p)
  {
    var r := DropStitchedBack(z);
    if r != z {
      forall k | InUse(z, k) ensures InUse(r, k) {
        var v :| v in z && v.base.mem == k;
        var i :| 0 <= i < |z| && z[i] == v;
        assert r[|r| - 1] in r && r[|r| - 1].base == z[|z| - 1].base;
        assert i < |r| ==> r[i] in r;
      }
    }
  }

  lemma PushKept(q: seq<View>, v: View, p: Pool)
    ensures NoneLost(q, p) || (v.length > 0 && NoneLost(q + [v], p)) ==> NoneLost(Pushed(q, v), p)
  {
    if v.length > 0 {
      forall k ensures InUse(q + [v], k) <==> InUse(q, k) || k == v.base.mem {
        InUseBehind(q, v, k);
      }
      if NoneLost(q + [v], p) {
        PushedKept(q, v, p);
      }
    }
    hide Pushed;
  }

  /** A front shorter than the maximum fits the accumulation buffer's whole items. */
  lemma FrontFits(q: seq<View>, item: nat, maximum: nat)
    requires item > 0 && item <= maximum && Aligned(q, item) && q != [] && q[0].length < maximum
    ensures 0 < FreeBytes(maximum, item) && q[0].length <= FreeBytes(maximum, item)
  {
    assert q[0] in q;
    DivModUnique(item, item, 1, 0);
    MultiplesBelow(item, maximum, item);
    MultiplesBelow(q[0].length, maximum, item);
  }
}

/** One input port of InputBufferQueues: the fields the source keeps in parallel vectors,
    updated in place. The ghost fields record every byte pushed and how many were used. */
module InputQueues {
  import opened Results
  import opened Memory
  import opened Views
  import opened AuxPool
  import opened Stitching

  const MAX_AUX_BUFF_BYTES: nat := 65536

  /** What front() returns on an empty queue. */
  const NULL_VIEW := View(0, Address(0, 0), 0, 0, None)

  lemma FrontTotal(q: seq<View>)
    requires q != []
    ensures q[0].length <= Total(q)
    ensures |q| == 1 ==> Total(q) == q[0].length
  {
    if |q| == 1 { assert q[1..] == []; }
  }

  /** boost::circular_buffer::push_front: a full buffer loses its last element. */
  function PushFront(q: seq<View>, capacity: nat, v: View): seq<View> {
    if |q| == capacity && q != [] then [v] + q[..|q| - 1] else [v] + q
  }

  /** Whether accumulate ends with its assertion true. */
  predicate AccumulateSucceeds(q: seq<View>, maximum: nat, item: nat)
    requires item > 0
  {
    || IsAccumulated(q, maximum)
    || Total(q) < FreeBytes(maximum, item)
    || (Total(q) == FreeBytes(maximum, item) && q[|q| - 1].length > 0)
    || maximum % item == 0
  }

  lemma AlreadyAccumulated(q: seq<View>, maximum: nat, item: nat)
    requires item > 0 && IsAccumulated(q, maximum)
    ensures AccumulateSucceeds(q, maximum, item)
  {
  }

  /** All that accumulating into acc does, for a queue that is not yet accumulated. */
  lemma AccumulateSound(m: Store, q: seq<View>, acc: View, maximum: nat, item: nat, s: seq<byte>, c: nat)
    requires Holds(m, q, s, c) && Linked(m, q) && Aligned(q, item)
    requires 0 < item <= maximum && !IsAccumulated(q, maximum)
    requires acc.length == 0 && AccReady(m, acc, q, maximum)
    ensures var free := FreeBytes(maximum, item);
            var h := Accumulated(m, q, acc, free);
            && Holds(h.mem, h.queue, s, c) && Linked(h.mem, h.queue)
            && Total(h.queue) == Total(q)
            && h.queue[0].length == Min(free, Total(q))
            && |h.queue| <= |q|
            && (IsAccumulated(h.queue, maximum) <==> AccumulateSucceeds(q, maximum, item))
  {
    hide FreeBytes;
    hide Holds;
    hide Linked;
    hide AccReady;
    hide Gather;
    hide Aligned;
    hide Total;
    var free := FreeBytes(maximum, item);
    FrontFits(q, item, maximum);
    AccLess(m, acc, q, maximum, free);
    AccumulateHolds(m, q, acc, free, s, c);
    AccumulateLinked(m, q, acc, free);
    AccumulateAssertion(m, q, acc, maximum, item);
    HoldsWithin(m, q, s, c);
    HoldsWithin(Accumulated(m, q, acc, free).mem, Accumulated(m, q, acc, free).queue, s, c);
  }

  lemma HoldsGrow(m: Store, k: nat, r: Region, q: seq<View>, s: seq<byte>, c: nat)
    requires k !in m && Holds(m, q, s, c)
    ensures Holds(m[k := r], q, s, c)
    ensures forall v :: v in q ==> v.base.mem in m
    ensures Linked(m, q) ==> Linked(m[k := r], q)
  {
    forall j | 0 <= j < |q|
      ensures Carries(m[k := r], q[j], s, Starts(q, c)[j]) && q[j].base.mem in m
      ensures Honest(m, q[j]) ==> Honest(m[k := r], q[j])
    {
      assert Carries(m, q[j], s, Starts(q, c)[j]);
    }
  }

  lemma PushSound(m: Store, q: seq<View>, s: seq<byte>, c: nat, v: View, p: Pool, item: nat)
    requires Holds(m, q, s, c) && Linked(m, q) && PoolOk(m, q, p) && Aligned(q, item)
    requires item > 0 && v.length % item == 0 && Admits(m, p, v)
    requires Carries(m, v, s + Read(m, v.Get(0), v.length), |s|) && Honest(m, v)
    ensures var r := Pushed(q, v);
            && Holds(m, r, s + Read(m, v.Get(0), v.length), c) && Linked(m, r)
            && PoolOk(m, r, p) && Aligned(r, item)
            && Total(r) == Total(q) + v.length && |r| <= |q| + 1
  {
    hide Holds;
    hide Linked;
    hide PoolOk;
    hide Aligned;
    hide Total;
    hide Carries;
    hide Honest;
    hide Admits;
    var data := Read(m, v.Get(0), v.length);
    PushKeeps(m, q, s, c, v, data);
    PushedPool(m, q, v, p, item);
    HoldsWithin(m, q, s, c);
    HoldsWithin(m, Pushed(q, v), s + data, c);
  }

  lemma ConsumeSound(m: Store, q: seq<View>, s: seq<byte>, c: nat, n: nat)
    requires Holds(m, q, s, c) && Linked(m, q) && q != [] && n <= q[0].length
    ensures var r := Consumed(q, n);
            && Holds(m, r, s, c + n) && Linked(m, r)
            && Total(r) + n == Total(q) && |r| <= |q|
  {
    hide Holds;
    hide Linked;
    hide Total;
    ConsumeKeeps(m, q, s, c, n);
    HoldsWithin(m, q, s, c);
    HoldsWithin(m, Consumed(q, n), s, c + n);
  }

  function Zeros(n: nat): (r: seq<byte>)
    ensures |r| == n && forall k :: 0 <= k < n ==> r[k] == 0
  {
    seq(n, _ => 0)
  }

  /** A pool buffer zeroed up to delta may be pushed as preload. */
  lemma PreloadSound(m: Store, q: seq<View>, s: seq<byte>, c: nat, p: Pool, acc: View, delta: nat)
    requires Holds(m, q, s, c) && Linked(m, q) && PoolOk(m, q, p) && TakenOut(m, q, p, acc)
    requires acc == Whole(acc.buf) && delta <= p.size
    ensures var m', v := Write(m, acc.base, Zeros(delta)), acc.(length := delta);
            && Holds(m', q, s, c) && Linked(m', q) && PoolOk(m', q, p)
            && Read(m', v.Get(0), delta) == Zeros(delta)
            && Carries(m', v, s + Zeros(delta), |s|) && Honest(m', v) && Admits(m', p, v)
            && SameShape(m, m')
  {
    var zs := Zeros(delta);
    var m', v := Write(m, acc.base, zs), acc.(length := delta);
    WriteShape(m, acc.base, zs);
    assert forall w :: w in q ==> w.base.mem != acc.base.mem;
    HoldsElsewhere(m, q, s, c, acc.base, zs);
    LinkedShape(m, m', q);
    PoolShape(m, m', q, p, acc);
    hide Holds;
    hide Linked;
    hide PoolOk;
    assert Writable(m, acc.base, |zs|);
    hide Write;
    WriteReadBack(m, acc.base, zs);
    assert v.Get(0) == acc.base;
    forall d {:trigger v.base.At(d)} | 0 <= d < delta && 0 <= |s| + d
      ensures Peek(m', v.base.At(d)) == (s + zs)[|s| + d]
    {
      assert Read(m', acc.base, delta)[d] == zs[d];
    }
  }

  /** Writes outside every queued view's memory up to its end are not seen. */
  lemma HoldsFrame(m: Store, m': Store, q: seq<View>, s: seq<byte>, c: nat)
    requires Holds(m, q, s, c) && Untouched(m, m', q)
    ensures Holds(m', q, s, c)
    ensures Linked(m, q) ==> Linked(m', q)
  {
    forall j | 0 <= j < |q|
      ensures Carries(m', q[j], s, Starts(q, c)[j])
      ensures Honest(m, q[j]) ==> Honest(m', q[j])
    {
      assert Carries(m, q[j], s, Starts(q, c)[j]);
    }
  }

  /** Regions keep their shape and no byte of a queued view's memory up to its end changes. */
  ghost predicate Untouched(m: Store, m': Store, q: seq<View>) {
    && m.Keys <= m'.Keys
    && (forall k :: k in m ==> m[k].Flat? == m'[k].Flat? && |m[k].cells| == |m'[k].cells|)
    && forall v, d {:trigger v.base.At(d)} :: v in q && 0 <= d < v.offset + v.length ==>
         Peek(m', v.base.At(d)) == Peek(m, v.base.At(d))
  }

  /** The specified round, piece by piece. */
  lemma StepMeans(g: Gathering, free: nat, p: Pool)
    requires g.queue != []
    ensures var n, h := Min(g.queue[0].length, free), GatherStep(g, free);
      var f := Advanced(g.queue[0], n).(last := Some(h.acc.End()));
      && h.acc == g.acc.(length := g.acc.length + n) && h.mem == Write(g.mem, g.acc.End(), Read(g.mem, g.queue[0].Get(0), n))
      && h.queue == (if f.length == 0 then [] else [f]) + g.queue[1..]
      && PoolStep(g, free, p) == (if n == g.queue[0].length then Freed(p, g.queue[0], g.queue[1..]) else p)
      && (|h.queue| < |g.queue| || (|h.queue| == |g.queue| && n == free))
  {
    hide Write;
    hide Read;
    hide Freed;
  }

  lemma SameMemory(p: Pool, f: View, v: View, rest: seq<View>)
    requires f.base == v.base
    ensures Freed(p, f, rest) == Freed(p, v, rest)
  {
  }

  method FreshId(m: Store) returns (k: nat)
    ensures k !in m
  {
    k := 0;
    ghost var above := m.Keys;
    while k in m
      invariant forall i :: i in m && k <= i ==> i in above
      invariant forall i :: i in above ==> k <= i
      decreases above
    {
      above := above - {k};
      k := k + 1;
    }
  }

  class InputPort {
    var mem: Store
    var ready: bool
    var itemSize: nat
    var enqueued: nat
    var reserve: nat
    var maximum: nat
    var preload: nat
    var queue: seq<View>
    var capacity: nat
    var pool: Pool
    var bytesCopied: nat
    ghost var stream: seq<byte>
    ghost var used: nat

    /** Everything but the size relations that update_config re-establishes last. */
    ghost predicate Core()
      reads this
    {
      && Holds(mem, queue, stream, used) && Linked(mem, queue)
      && enqueued == Total(queue)
      && 1 <= capacity && |queue| <= capacity
      && maximum > 0
      && Aligned(queue, itemSize)
      && PoolOk(mem, queue, pool) && pool.size == maximum
    }

    /** No auxiliary buffer is lost. */
    ghost predicate Kept()
      reads this
    {
      NoneLost(queue, pool)
    }

    /** Nor the one whose window v is about to be queued. */
    ghost predicate KeptWith(v: View)
      reads this
    {
      NoneLost(queue + [v], pool)
    }

    ghost predicate Valid()
      reads this
    {
      Core() && Kept() && itemSize <= maximum && reserve <= maximum && (itemSize > 0 ==> reserve % itemSize == 0)
    }

    constructor ()
      ensures Valid() && stream == [] && used == 0 && queue == [] && !ready && enqueued == 0
      ensures mem == map[] && itemSize == 0 && reserve == 1 && maximum == MAX_AUX_BUFF_BYTES && preload == 0
      ensures capacity == 1 && pool == Pool([], {}, {}, MAX_AUX_BUFF_BYTES) && bytesCopied == 0
    {
      mem, ready, itemSize, enqueued, reserve := map[], false, 0, 0, 1;
      maximum, preload, queue, capacity := MAX_AUX_BUFF_BYTES, 0, [], 1;
      pool, bytesCopied := Pool([], {}, {}, MAX_AUX_BUFF_BYTES), 0;
      stream, used := [], 0;
    }

    method Update()
      modifies this`ready
      ensures ready == (enqueued >= reserve)
    {
      ready := enqueued >= reserve;
    }

    /** Drop the front handle; a pool buffer nobody else refers to goes back to the pool. */
    method Pop()
      requires queue != []
      modifies this`queue, this`pool
      ensures queue == old(queue)[1..]
      ensures pool == Freed(old(pool), old(queue)[0], queue)
      ensures old(Kept()) ==> Kept()
    {
      DroppedKept(queue, pool);
      hide NoneLost;
      var v := queue[0];
      queue := queue[1..];
      pool := Freed(pool, v, queue);
    }

    method AllocateOne()
      requires Core()
      modifies this`mem, this`pool
      ensures Core() && |pool.free| == |old(pool).free| + 1 && pool.held == old(pool.held)
      ensures old(Kept()) ==> Kept()
    {
      var k := FreshId(mem);
      HoldsGrow(mem, k, Flat(seq(maximum, _ => 0)), queue, stream, used);
      Grow(mem, k, queue, pool);
      hide Holds;
      hide Linked;
      hide PoolOk;
      mem := mem[k := Flat(seq(maximum, _ => 0))];
      pool := pool.(free := pool.free + [Whole(k)], owned := pool.owned + {k});
    }

    /** One round of the copy loop: bytes of the front view go behind acc's. */
    method CopyRound(acc: View, n: nat) returns (r: View)
      requires queue != [] && n <= queue[0].length
      modifies this`queue, this`pool, this`mem, this`bytesCopied
      ensures r == acc.(length := acc.length + n) && bytesCopied == old(bytesCopied) + n
      ensures mem == Write(old(mem), acc.End(), Read(old(mem), old(queue)[0].Get(0), n))
      ensures var f := Advanced(old(queue)[0], n).(last := Some(r.End()));
        queue == (if f.length == 0 then [] else [f]) + old(queue)[1..]
      ensures pool == if n == old(queue)[0].length then Freed(old(pool), old(queue)[0], old(queue)[1..]) else old(pool)
    {
      hide Write;
      hide Read;
      hide NoneLost;
      var f := queue[0];
      mem := Write(mem, acc.End(), Read(mem, f.Get(0), n));
      bytesCopied := bytesCopied + n;
      r := acc.(length := acc.length + n);
      f := Advanced(f, n).(last := Some(r.End()));
      ghost var q, p := queue, pool;
      queue := queue[0 := f];
      if f.length == 0 {
        Pop();
        SameMemory(p, f, q[0], queue);
      }
    }

    /** The copy loop of accumulate. */
    method CopyLoop(acc0: View, free0: nat) returns (acc: View)
      requires Copying(Gathering(queue, acc0, mem), free0, pool, itemSize)
      modifies this`queue, this`pool, this`mem, this`bytesCopied
      ensures Gathering(queue, acc, mem) == Gather(Gathering(old(queue), acc0, old(mem)), free0)
      ensures Copying(Gathering(queue, acc, mem), 0, pool, itemSize)
      ensures pool.size == old(pool).size
      ensures bytesCopied == old(bytesCopied) + acc.length - acc0.length
      ensures acc.base == acc0.base && (old(NoneLost([acc0] + queue, pool)) ==> NoneLost([acc] + queue, pool))
    {
      hide NoneLost;
      hide Write;
      hide Read;
      hide Total;
      hide Copying;
      hide Gather;
      hide GatherStep;
      hide PoolStep;
      acc := acc0;
      var free: nat := free0;
      while queue != [] && free != 0
        invariant Gather(Gathering(queue, acc, mem), free) == Gather(Gathering(old(queue), acc0, old(mem)), free0)
        invariant Copying(Gathering(queue, acc, mem), free, pool, itemSize)
        invariant pool.size == old(pool).size
        invariant bytesCopied == old(bytesCopied) + acc.length - acc0.length
        invariant acc.base == acc0.base && (old(NoneLost([acc0] + queue, pool)) ==> NoneLost([acc] + queue, pool))
        decreases |queue|, free
      {
        ghost var g, p := Gathering(queue, acc, mem), pool;
        CopyingStep(g, free, p, itemSize);
        if NoneLost([acc] + queue, pool) {
          GatheredKept(g, free, p, itemSize);
        }
        GatherUnfold(g, free);
        var n := Min(queue[0].length, free);
        acc := CopyRound(acc, n);
        StepMeans(g, free, p);
        free := free - n;
      }
      CopyingDone(Gathering(queue, acc, mem), free, pool, itemSize);
      GatherUnfold(Gathering(queue, acc, mem), free);
    }

    /** memcpy the front views into one auxiliary buffer and queue it in front. False is
        the failed ASSERT that the queue is then accumulated. */
    method Accumulate() returns (ok: bool)
      requires Core() && 0 < itemSize <= maximum && queue != []
      modifies this`queue, this`pool, this`mem, this`bytesCopied
      ensures Core()
      ensures old(Kept()) ==> Kept()
      ensures old(IsAccumulated(queue, maximum)) ==> ok && queue == old(queue) && mem == old(mem)
      ensures ok <==> old(AccumulateSucceeds(queue, maximum, itemSize))
      ensures queue != []
      ensures !old(IsAccumulated(queue, maximum)) ==>
                queue[0].length == Min(FreeBytes(maximum, itemSize), enqueued)
    {
      hide FreeBytes;
      hide Holds;
      hide Linked;
      hide PoolOk;
      hide TakenOut;
      hide AccReady;
      hide Gather;
      hide Aligned;
      hide Total;
      hide AccumulateSucceeds;
      if IsAccumulated(queue, maximum) {
        assert AccumulateSucceeds(queue, maximum, itemSize) by { AlreadyAccumulated(queue, maximum, itemSize); }
        return true;
      }
      if pool.free == [] { AllocateOne(); }
      TakeFree(mem, queue, pool);
      var acc, free := pool.free[0], FreeBytes(maximum, itemSize);
      pool := pool.(free := pool.free[1..]);
      AccumulateSound(mem, queue, acc, maximum, itemSize, stream, used);
      DivModUnique(0, itemSize, 0, 0);
      acc := CopyLoop(acc, free);
      PutFront(mem, queue, pool, acc, itemSize);
      queue := PushFront(queue, capacity, acc);
      ok := IsAccumulated(queue, maximum);
    }

    /** Accumulating a front that is too small gives the reserve whenever it is enqueued. */
    method FillFront() returns (ok: bool)
      requires Valid() && itemSize > 0 && queue != [] && queue[0].length < reserve
      modifies this`queue, this`pool, this`mem, this`bytesCopied
      ensures Valid() && queue != []
      ensures ok <==> old(AccumulateSucceeds(queue, maximum, itemSize))
      ensures queue[0].length >= reserve <==> enqueued >= reserve
    {
      FrontTotal(queue);
      MultiplesBelow(reserve, maximum, itemSize);
      hide FreeBytes;
      hide Holds;
      hide Linked;
      hide PoolOk;
      hide Total;
      hide Aligned;
      hide AccumulateSucceeds;
      ok := Accumulate();
    }

    /** The buffer for work: the front view, accumulated first when it is too small. Fails
        where the source's assertions do. */
    method Front() returns (r: Outcome<View>)
      requires Valid()
      modifies this`queue, this`pool, this`mem, this`bytesCopied
      ensures Valid()
      ensures r.Ok? <==>
                ready && itemSize > 0 &&
                (old(queue) == [] || old(queue)[0].length >= reserve
                 || (enqueued >= reserve && old(AccumulateSucceeds(queue, maximum, itemSize))))
      ensures r.Ok? && old(queue) == [] ==> r.value == NULL_VIEW && queue == []
      ensures r.Ok? && old(queue) != [] ==>
                && queue != [] && r.value == queue[0]
                && reserve <= r.value.length && r.value.length % itemSize == 0
                && used + r.value.length <= |stream|
                && Read(mem, r.value.Get(0), r.value.length) == stream[used..used + r.value.length]
    {
      hide Holds;
      hide Linked;
      hide PoolOk;
      hide Total;
      hide AccumulateSucceeds;
      hide Read;
      if !ready || itemSize == 0 { return AssertFailed; }
      if queue == [] { return Ok(NULL_VIEW); }
      if queue[0].length < reserve {
        var ok := FillFront();
        if !ok { return AssertFailed; }
      }
      if queue[0].length < reserve { return AssertFailed; }
      FrontReads(mem, queue, stream, used);
      assert queue[0] in queue;
      return Ok(queue[0]);
    }

    /** The stitching loop: contiguous neighbours, last pair first; then drop a last view
        that was drained into one of the same buffer. */
    method Stitch()
      requires |queue| >= 2
      modifies this`queue
      ensures queue == DropStitchedBack(StitchDown(old(queue), |old(queue)| - 1)) && Joined(queue)
    {
      ghost var q0 := queue;
      LoopJoins(q0);
      hide Joined;
      var j: nat := |queue| - 1;
      while j > 0
        invariant j < |queue| == |q0|
        invariant StitchDown(queue, j) == StitchDown(q0, |q0| - 1)
      {
        var b1, b0 := queue[j], queue[j - 1];
        if b1.last == Some(b0.End()) && b0.last != None {
          var bytes := b1.length;
          b0 := b0.(length := b0.length + bytes);
          b1 := b1.(offset := b1.offset + bytes, length := 0, last := Some(b0.End()));
          queue := queue[j - 1 := b0][j := b1];
        }
        j := j - 1;
      }
      var b1, b0 := queue[|queue| - 1], queue[|queue| - 2];
      if SameBuffer(b1, b0) && b1.length == 0 {
        queue := queue[..|queue| - 1];
      }
    }

    /** What a producer promises of the buffers it posts: whole items, the next bytes of the
        stream behind the preceding ones, an honest mark, and no free auxiliary buffer. */
    ghost predicate Promised(v: View)
      reads this
    {
      && itemSize > 0 && v.length % itemSize == 0 && Admits(mem, pool, v)
      && Carries(mem, v, stream + Read(mem, v.Get(0), v.length), |stream|) && Honest(mem, v)
    }

    /** Queue the buffer, count its bytes, and stitch. */
    method Append(v: View)
      modifies this`queue, this`capacity, this`enqueued, this`ready
      ensures queue == Pushed(old(queue), v) && enqueued == old(enqueued) + v.length
      ensures capacity == if old(|queue| == capacity) then 2 * old(capacity) else old(capacity)
      ensures ready == if v.length == 0 then old(ready) else enqueued >= reserve
    {
      hide StitchDown;
      hide DropStitchedBack;
      hide Joined;
      if |queue| == capacity { capacity := |queue| * 2; }
      if v.length == 0 { return; }
      queue := queue + [v];
      enqueued := enqueued + v.length;
      Update();
      assert |queue| == 1 ==> queue == [v];
      if |queue| <= 1 { return; }
      Stitch();
    }

    /** What the stream becomes when v is pushed. */
    ghost method Extend(v: View)
      modifies this`stream
      ensures stream == old(stream) + if old(Core() && Promised(v)) then Read(mem, v.Get(0), v.length) else []
      ensures old(Core() && Promised(v)) ==>
        var r := Pushed(queue, v);
        && Holds(mem, r, stream, used) && Linked(mem, r) && PoolOk(mem, r, pool) && Aligned(r, itemSize)
        && Total(r) == enqueued + v.length && |r| <= |queue| + 1 && pool.size == maximum > 0
    {
      hide Holds;
      hide Linked;
      hide PoolOk;
      hide Aligned;
      hide Total;
      hide Carries;
      hide Honest;
      hide Admits;
      hide Pushed;
      if Core() && Promised(v) {
        PushSound(mem, queue, stream, used, v, pool, itemSize);
        stream := stream + Read(mem, v.Get(0), v.length);
      }
    }

    lemma KeptAfter(v: View)
      ensures Kept() || (v.length > 0 && KeptWith(v)) ==> NoneLost(Pushed(queue, v), pool)
    {
      PushKept(queue, v, pool);
    }

    /** Append a buffer, whatever it is, and stitch it to what it continues; given the producer's
        promise, the stream grows by exactly its bytes. */
    method Push(v: View)
      requires 1 <= capacity && |queue| <= capacity
      modifies this`queue, this`capacity, this`enqueued, this`ready, this`stream
      ensures queue == Pushed(old(queue), v) && Stitched(old(queue), v, queue)
      ensures enqueued == old(enqueued) + v.length
      ensures capacity == if old(|queue| == capacity) then 2 * old(capacity) else old(capacity)
      ensures ready == if v.length == 0 then old(ready) else enqueued >= reserve
      ensures old(Core() && Promised(v)) ==> Core()
      ensures old(Kept()) || (v.length > 0 && old(KeptWith(v))) ==> Kept()
      ensures stream == old(stream) + if old(Core() && Promised(v)) then Read(mem, v.Get(0), v.length) else []
    {
      hide Holds;
      hide Linked;
      hide PoolOk;
      hide Aligned;
      hide Total;
      hide Promised;
      hide Read;
      hide Pushed;
      hide NoneLost;
      hide Stitched;
      hide KeptWith;
      PushStitched(queue, v);
      KeptAfter(v);
      Extend(v);
      Append(v);
    }

    function Bytes(items: nat): nat
      reads this`itemSize
    {
      items * itemSize
    }

    /** Move the front's window past items, and drop it when that drains it. */
    method Shorten(items: nat)
      requires PoolOk(mem, queue, pool) && Aligned(queue, itemSize)
      requires queue != [] && Bytes(items) <= queue[0].length
      modifies this`queue, this`pool
      ensures queue == Shortened(old(queue), Bytes(items))
      ensures PoolOk(mem, queue, pool) && Aligned(queue, itemSize) && pool.size == old(pool).size
      ensures old(Kept()) ==> Kept()
    {
      hide PoolOk;
      hide Aligned;
      var bytes := Bytes(items);
      ShortenedPool(mem, queue, pool, itemSize, items);
      queue := queue[0 := Advanced(queue[0], bytes)];
      if queue[0].length == 0 { Pop(); }
    }

    /** Use up items at the front. False is a failed ASSERT, which changes nothing. */
    method Consume(items: nat) returns (ok: bool)
      requires Core()
      modifies this`queue, this`pool, this`enqueued, this`ready, this`used
      ensures Core()
      ensures old(Kept()) ==> Kept()
      ensures ok <==> old(queue) != [] && Bytes(items) <= old(queue)[0].length
      ensures used == old(used) + if ok then Bytes(items) else 0
      ensures queue == if ok then Consumed(old(queue), Bytes(items)) else old(queue)
      ensures ok ==> LeftOver(old(queue), Bytes(items), queue) && (old(Joined(queue)) ==> Joined(queue))
      ensures ready == if ok then enqueued >= reserve else old(ready)
    {
      hide Holds;
      hide Linked;
      hide PoolOk;
      hide Aligned;
      hide Total;
      hide Freed;
      hide NoneLost;
      hide LeftOver;
      hide Joined;
      hide Consumed;
      hide Bytes;
      var bytes := Bytes(items);
      if queue == [] || queue[0].length < bytes { return false; }
      ConsumeSound(mem, queue, stream, used, bytes);
      ConsumedExactly(queue, bytes);
      if Joined(queue) {
        ConsumedJoined(queue, bytes);
      }
      ConsumedInParts(queue, bytes);
      hide Shortened;
      Shorten(items);
      enqueued := enqueued - bytes;
      used := used + bytes;
      Update();
      Unstitch();
      ok := true;
    }

    /** When what is left of the front lies in the bytes before the next view's window,
        widen that window and drop the front. */
    method Unstitch()
      requires PoolOk(mem, queue, pool) && Aligned(queue, itemSize)
      modifies this`queue, this`pool
      ensures queue == Unstitched(old(queue))
      ensures PoolOk(mem, queue, pool) && Aligned(queue, itemSize) && pool.size == old(pool).size
      ensures old(Kept()) ==> Kept()
    {
      if |queue| >= 2 {
        var b0, b1 := queue[0], queue[1];
        if b0.length <= b1.offset && Some(b0.End()) == b1.last {
          UnstitchedPool(mem, queue, pool, itemSize);
          ghost var p, q, r := pool, queue, Unstitched(queue);
          if Kept() {
            UnstitchedKept(q, p);
          }
          hide NoneLost;
          hide Freed;
          hide PoolOk;
          hide Aligned;
          queue := queue[1 := b1.(offset := b1.offset - b0.length, length := b1.length + b0.length)];
          Pop();
          assert queue == r && pool == Freed(p, q[0], r);
        }
      }
    }

    /** The maximum in force after a configuration update. */
    function NewMaximum(reserveBytes: nat, maximumBytes: nat): nat
      reads this`maximum
    {
      var asked := if maximumBytes != 0 then maximumBytes else maximum;
      if asked < reserveBytes then reserveBytes else asked
    }

    /** The first part of update_config: item size, maximum, and an auxiliary pool with a
        free buffer of that size. Buffers of a replaced pool no longer come back. */
    method Resize(item: nat, newMaximum: nat)
      requires Core() && 0 < item && 0 < newMaximum && Aligned(queue, item)
      modifies this`itemSize, this`maximum, this`pool, this`mem
      ensures Core() && itemSize == item && maximum == newMaximum && pool.free != []
      ensures if old(pool.free) == [] || old(pool.size) != newMaximum then |pool.free| == 3 && pool.held == old(pool.held)
              else pool == old(pool) && mem == old(mem)
      ensures old(Kept()) ==> Kept()
    {
      hide Holds;
      hide Linked;
      hide Total;
      itemSize, maximum := item, newMaximum;
      if pool.free == [] || pool.size != newMaximum {
        pool := Pool([], {}, pool.held, newMaximum);
        AllocateOne();
        AllocateOne();
        AllocateOne();
      }
    }

    /** Queue delta zero bytes from an auxiliary buffer. */
    method Preload(delta: nat)
      requires Core() && itemSize > 0 && delta % itemSize == 0 && delta <= maximum && pool.free != []
      modifies this`queue, this`capacity, this`enqueued, this`ready, this`stream, this`mem, this`pool
      ensures Core() && stream == old(stream) + Zeros(delta)
      ensures delta > 0 && old(Kept()) ==> Kept()
    {
      hide Holds;
      hide Linked;
      hide Total;
      hide PoolOk;
      hide TakenOut;
      hide Carries;
      hide Honest;
      hide Admits;
      hide Write;
      hide NoneLost;
      TakeFree(mem, queue, pool);
      FilledKept(queue, pool, delta);
      var buff := pool.free[0];
      pool := pool.(free := pool.free[1..]);
      PreloadSound(mem, queue, stream, used, pool, buff, delta);
      mem := Write(mem, buff.base, Zeros(delta));
      Push(buff.(length := delta));
    }

    /** More preload queues zero bytes; less preload passes a byte count to consume, which
        takes items. False is consume's failed ASSERT. */
    method AdjustPreload(preloadBytes: nat) returns (ok: bool)
      requires Core() && itemSize > 0 && pool.free != []
      requires preloadBytes % itemSize == 0 && preload % itemSize == 0 && preloadBytes <= preload + maximum
      modifies this`queue, this`capacity, this`enqueued, this`ready, this`stream, this`used, this`mem, this`pool
      ensures Core()
      ensures old(Kept()) ==> Kept()
      ensures ok <==> || preloadBytes >= preload
                      || (old(queue) != [] && Min(preload - preloadBytes, old(enqueued)) * itemSize <= old(queue)[0].length)
      ensures ok && preloadBytes >= preload ==>
                stream == old(stream) + Zeros(preloadBytes - preload) && used == old(used)
      ensures ok && preloadBytes < preload ==>
                stream == old(stream) && used == old(used) + Min(preload - preloadBytes, old(enqueued)) * itemSize
      ensures preloadBytes == preload ==> queue == old(queue) && enqueued == old(enqueued)
    {
      hide Holds;
      hide Linked;
      hide Total;
      hide PoolOk;
      hide Aligned;
      ok := true;
      if preloadBytes > preload {
        AlignedDifference(preloadBytes, preload, itemSize);
        Preload(preloadBytes - preload);
      } else if preloadBytes < preload {
        ok := Consume(Min(preload - preloadBytes, enqueued));
      }
    }

    /** A new configuration. */
    method UpdateConfig(item: nat, preloadBytes: nat, reserveBytes: nat, maximumBytes: nat) returns (ok: bool)
      requires Valid() && 0 < item && Aligned(queue, item)
      requires reserveBytes % item == 0 && preloadBytes % item == 0 && preload % item == 0
      requires preloadBytes <= preload + NewMaximum(reserveBytes, maximumBytes)
      modifies this
      ensures ok <==> || preloadBytes >= old(preload)
                      || (old(queue) != [] && Min(old(preload) - preloadBytes, old(enqueued)) * item <= old(queue)[0].length)
      ensures ok ==> Core() && itemSize == item && preload == preloadBytes && reserve == reserveBytes
      ensures ok && item <= maximum ==> Valid()
      ensures ok ==> maximum == old(NewMaximum(reserveBytes, maximumBytes)) && ready == (enqueued >= reserve)
      ensures ok ==> maximum >= reserveBytes && maximum >= maximumBytes
                     && (maximum == reserveBytes || maximum == if maximumBytes != 0 then maximumBytes else old(maximum))
                     && (maximumBytes == 0 ==> maximum >= old(maximum))
      ensures ok && preloadBytes >= old(preload) ==>
                stream == old(stream) + Zeros(preloadBytes - old(preload)) && used == old(used)
      ensures ok && preloadBytes == old(preload) ==> queue == old(queue) && enqueued == old(enqueued)
      ensures ok && preloadBytes < old(preload) ==>
                stream == old(stream) && used == old(used) + Min(old(preload) - preloadBytes, old(enqueued)) * item
    {
      hide Holds;
      hide Linked;
      hide Total;
      hide PoolOk;
      hide Aligned;
      Resize(item, NewMaximum(reserveBytes, maximumBytes));
      ok := AdjustPreload(preloadBytes);
      if ok {
        preload, reserve := preloadBytes, reserveBytes;
        Update();
      }
    }

    /** Called without ready data by work: not ready until the next update. */
    method Fail()
      modifies this`ready
      ensures !ready
    {
      ready := false;
    }

    method UpdateHasMsg(has: bool)
      modifies this`ready
      ensures ready == (has || enqueued >= reserve)
    {
      if has { ready := true; } else { Update(); }
    }

    /** Forget all queued data. */
    method Flush()
      requires Valid()
      modifies this`queue, this`pool, this`capacity, this`enqueued, this`ready, this`used
      ensures Valid() && queue == [] && enqueued == 0 && used == |stream| && capacity == 1
      ensures ready == (reserve == 0)
    {
      while queue != []
        invariant PoolOk(mem, queue, pool) && pool.size == maximum && Kept()
        decreases |queue|
      {
        FrontDropped(mem, queue, pool, 0);
        Pop();
      }
      capacity, enqueued, used := 1, 0, |stream|;
      Update();
    }

    /** Some handle outside the queue now refers to the front buffer (get_input_buffer). */
    method Hold()
      requires Core() && queue != []
      modifies this`pool
      ensures Core() && pool == old(pool).(held := old(pool).held + {queue[0].base.mem})
      ensures old(Kept()) ==> Kept()
    {
      FrontCarries(mem, queue, stream, used);
      assert queue[0] in queue;
      pool := pool.(held := pool.held + {queue[0].base.mem});
    }

    /** The last outside handle to buffer k is dropped. */
    method Release(k: nat)
      requires Core() && k in pool.held
      modifies this`pool
      ensures Core()
      ensures old(Kept()) ==> Kept()
      ensures pool == Freed(old(pool).(held := old(pool).held - {k}), Whole(k), queue)
    {
      pool := Freed(pool.(held := pool.held - {k}), Whole(k), queue);
    }

    /** Producers and other pools write memory, but not what a queued view shows or the
        bytes of its memory before that. */
    method Environment(m': Store)
      requires Valid() && Untouched(mem, m', queue)
      modifies this`mem
      ensures Valid() && mem == m' && Contents(mem, queue) == old(Contents(mem, queue))
    {
      ContentsAreStream(mem, queue, stream, used);
      HoldsFrame(mem, m', queue, stream, used);
      ContentsAreStream(m', queue, stream, used);
      hide Holds;
      hide Linked;
      hide Total;
      mem := m';
    }
  }
}
