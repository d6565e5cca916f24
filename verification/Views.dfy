/** The queue of buffer views of one input port, as values: what stitching, un-stitching
    and accumulation do to it, and why none of them changes the byte stream. */
module Views {
  import opened Results
  import opened Memory

  /** A buffer handle: shared memory plus this handle's own window and end-of-previous mark. */
  datatype View = View(buf: nat, base: Address, offset: nat, length: nat, last: Option<Address>) {
    function Get(delta: nat): Address {
      base.At(offset + delta)
    }

    function End(): Address {
      Get(length)
    }
  }

  function Total(q: seq<View>): nat {
    if q == [] then 0 else q[0].length + Total(q[1..])
  }

  /** The bytes a reader of the whole queue would see. */
  function Contents(m: Store, q: seq<View>): seq<byte> {
    if q == [] then [] else Read(m, q[0].Get(0), q[0].length) + Contents(m, q[1..])
  }

  function Min(a: nat, b: nat): nat {
    if a <= b then a else b
  }

  // ---------------------------------------------------------------- operations

  function StitchPair(q: seq<View>, j: nat): (r: seq<View>)
    requires 1 <= j < |q|
    ensures |r| == |q|
  {
    var b1, b0 := q[j], q[j - 1];
    if b1.last == Some(b0.End()) && b0.last != None then
      var grown := b0.(length := b0.length + b1.length);
      var drained := b1.(offset := b1.offset + b1.length, length := 0, last := Some(grown.End()));
      q[j - 1 := grown][j := drained]
    else q
  }

  function StitchDown(q: seq<View>, j: nat): (r: seq<View>)
    requires j < |q| || j == 0
    ensures |r| == |q|
    decreases j
  {
    if j == 0 then q else StitchDown(StitchPair(q, j), j - 1)
  }

  /** Two handles to the same buffer. */
  predicate SameBuffer(a: View, b: View) {
    a.buf == b.buf && a.base == b.base
  }

  function DropStitchedBack(q: seq<View>): seq<View>
    requires |q| >= 2
  {
    var b1, b0 := q[|q| - 1], q[|q| - 2];
    if SameBuffer(b1, b0) && b1.length == 0 then q[..|q| - 1] else q
  }

  function Pushed(q: seq<View>, v: View): seq<View> {
    if v.length == 0 then q
    else if q == [] then [v]
    else DropStitchedBack(StitchDown(q + [v], |q|))
  }

  function Unstitched(q: seq<View>): seq<View> {
    if |q| >= 2 && q[0].length <= q[1].offset && Some(q[0].End()) == q[1].last then
      [q[1].(offset := q[1].offset - q[0].length, length := q[1].length + q[0].length)] + q[2..]
    else q
  }

  /** The front view after n of its bytes are used. */
  function Advanced(v: View, n: nat): View
    requires n <= v.length
  {
    v.(offset := v.offset + n, length := v.length - n)
  }

  function Shortened(q: seq<View>, n: nat): seq<View>
    requires q != [] && n <= q[0].length
  {
    if n == q[0].length then q[1..] else [Advanced(q[0], n)] + q[1..]
  }

  function Consumed(q: seq<View>, n: nat): seq<View>
    requires q != [] && n <= q[0].length
  {
    Unstitched(Shortened(q, n))
  }

  predicate IsAccumulated(q: seq<View>, maximum: nat) {
    |q| <= 1 || q[0].length >= maximum
  }

  datatype Gathering = Gathering(queue: seq<View>, acc: View, mem: Store)

  /** One round of the copy loop. */
  function GatherStep(g: Gathering, free: nat): Gathering
    requires g.queue != []
  {
    var f := g.queue[0];
    var n := Min(f.length, free);
    var m' := Write(g.mem, g.acc.End(), Read(g.mem, f.Get(0), n));
    var acc' := g.acc.(length := g.acc.length + n);
    var f' := Advanced(f, n).(last := Some(acc'.End()));
    Gathering(if f'.length == 0 then g.queue[1..] else [f'] + g.queue[1..], acc', m')
  }

  function Gather(g: Gathering, free: nat): Gathering
    decreases |g.queue|, free
  {
    if g.queue == [] || free == 0 then g
    else Gather(GatherStep(g, free), free - Min(g.queue[0].length, free))
  }

  // ---------------------------------------------------------------- invariants

  /** v shows stream bytes from position p, and the bytes of its memory before its window
      are the stream bytes before p (as far back as both reach). */
  ghost predicate Carries(m: Store, v: View, s: seq<byte>, p: nat) {
    && p + v.length <= |s|
    && v.base.mem in m && |m[v.base.mem].cells| > 0
    && (m[v.base.mem].Flat? ==> v.base.pos + v.offset + v.length <= |m[v.base.mem].cells|)
    && forall d {:trigger v.base.At(d)} :: 0 <= d < v.offset + v.length && v.offset <= p + d
         ==> Peek(m, v.base.At(d)) == s[p + d - v.offset]
  }

  /** Stream positions of the views of q when the first is at c; one more for the end. */
  function Starts(q: seq<View>, c: nat): (r: seq<nat>)
    ensures |r| == |q| + 1 && r[0] == c && r[|q|] == c + Total(q)
    ensures forall j {:trigger q[j]} :: 0 <= j < |q| ==> r[j + 1] == r[j] + q[j].length
  {
    if q == [] then [c]
    else
      var rest := Starts(q[1..], c + q[0].length);
      assert forall j :: 1 <= j < |q| ==> q[j] == q[1..][j - 1];
      [c] + rest
  }

  /** q holds exactly the stream s from position c on. */
  ghost predicate Holds(m: Store, q: seq<View>, s: seq<byte>, c: nat) {
    && c + Total(q) == |s|
    && forall j {:trigger q[j]} :: 0 <= j < |q| ==> Carries(m, q[j], s, Starts(q, c)[j])
  }

  /** The end-of-previous mark names the cell where the window starts. */
  ghost predicate Honest(m: Store, v: View) {
    v.last != None ==> Alias(m, v.last.value, v.Get(0))
  }

  ghost predicate HonestFrom(m: Store, q: seq<View>, k: nat) {
    forall j {:trigger q[j]} :: k <= j < |q| ==> Honest(m, q[j])
  }

  /** Marks are honest wherever stitching may act on them: everywhere but at the front,
      and behind an accumulated front, which is never stitched to. */
  ghost predicate Linked(m: Store, q: seq<View>) {
    if q != [] && q[0].last == None then HonestFrom(m, q, 2) else HonestFrom(m, q, 1)
  }

  // ---------------------------------------------------------------- positions

  lemma {:induction false} StartsUnique(q: seq<View>, c: nat, at: seq<nat>)
    requires |at| == |q| + 1 && at[0] == c
    requires forall j {:trigger q[j]} :: 0 <= j < |q| ==> at[j + 1] == at[j] + q[j].length
    ensures at == Starts(q, c)
  {
    if q != [] {
      assert at[1] == at[0] + q[0].length;
      assert forall j :: 0 <= j < |q| - 1 ==> q[1..][j] == q[j + 1];
      StartsUnique(q[1..], c + q[0].length, at[1..]);
      assert at == [at[0]] + at[1..];
    }
  }

  /** Reading the whole queue gives the unconsumed stream. */
  lemma {:induction false} ContentsAreStream(m: Store, q: seq<View>, s: seq<byte>, c: nat)
    requires Holds(m, q, s, c)
    ensures Contents(m, q) == s[c..]
  {
    hide Carries;
    hide Read;
    if q != [] {
      var c1 := c + q[0].length;
      TailHolds(m, q, s, c);
      ContentsAreStream(m, q[1..], s, c1);
      FrontReads(m, q, s, c);

      assert s[c..] == s[c..c1] + s[c1..];
    }
  }

  lemma FrontReads(m: Store, q: seq<View>, s: seq<byte>, c: nat)
    requires Holds(m, q, s, c) && q != []
    ensures c + q[0].length <= |s|
    ensures Read(m, q[0].Get(0), q[0].length) == s[c..c + q[0].length]
  {
    var v := q[0];
    assert Carries(m, v, s, Starts(q, c)[0]);
    forall d | 0 <= d < v.length
      ensures Read(m, v.Get(0), v.length)[d] == s[c..c + v.length][d]
    {
      assert v.Get(0).At(d) == v.base.At(v.offset + d);
    }
  }

  lemma FrontCarries(m: Store, q: seq<View>, s: seq<byte>, c: nat)
    requires Holds(m, q, s, c) && q != []
    ensures Carries(m, q[0], s, c) && c + q[0].length <= |s|
  {
    assert Carries(m, q[0], s, Starts(q, c)[0]);
  }

  lemma TailHolds(m: Store, q: seq<View>, s: seq<byte>, c: nat)
    requires Holds(m, q, s, c) && q != []
    ensures Holds(m, q[1..], s, c + q[0].length)
  {
    forall j | 0 <= j < |q| - 1
      ensures Carries(m, q[1..][j], s, Starts(q[1..], c + q[0].length)[j])
    {
      assert q[1..][j] == q[j + 1];
    }
  }

  /** Putting a view in front extends the held stream backwards. */
  lemma ConsHolds(m: Store, v: View, q: seq<View>, s: seq<byte>, c: nat)
    requires Carries(m, v, s, c) && Holds(m, q, s, c + v.length)
    ensures Holds(m, [v] + q, s, c)
  {
    var w := [v] + q;
    assert w[1..] == q;
    forall j | 0 <= j < |w|
      ensures Carries(m, w[j], s, Starts(w, c)[j])
    {
      if j > 0 { assert w[j] == q[j - 1]; }
    }
  }

  // ---------------------------------------------------------------- push

  lemma StitchPairStarts(q: seq<View>, c: nat, j: nat)
    requires 1 <= j < |q| && StitchPair(q, j) != q
    ensures Starts(StitchPair(q, j), c) == Starts(q, c)[j := Starts(q, c)[j] + q[j].length]
    ensures Total(StitchPair(q, j)) == Total(q)
  {
    var r := StitchPair(q, j);
    var at := Starts(q, c);
    var at' := at[j := at[j] + q[j].length];
    assert at[(j - 1) + 1] == at[j - 1] + q[j - 1].length;
    forall k {:trigger r[k]} | 0 <= k < |r|
      ensures at'[k + 1] == at'[k] + r[k].length
    {
      assert at[k + 1] == at[k] + q[k].length;
    }
    StartsUnique(r, c, at');
  }

  lemma StitchPairHolds(m: Store, q: seq<View>, s: seq<byte>, c: nat, j: nat)
    requires 1 <= j < |q| && Holds(m, q, s, c) && Linked(m, q)
    ensures Holds(m, StitchPair(q, j), s, c)
  {
    hide Carries;
    hide Honest;
    var b1, b0, r := q[j], q[j - 1], StitchPair(q, j);
    if r != q {
      var at := Starts(q, c);
      StitchPairStarts(q, c, j);
      assert Honest(m, b1);
      assert at[(j - 1) + 1] == at[j - 1] + q[j - 1].length;
      assert Carries(m, b0, s, at[j - 1]) && Carries(m, b1, s, at[j]);
      StitchedCarries(m, b0, b1, s, at[j - 1]);
      forall k | 0 <= k < |r|
        ensures Carries(m, r[k], s, Starts(r, c)[k])
      {
        assert Carries(m, q[k], s, at[k]);
        assert k != j && k != j - 1 ==> r[k] == q[k];
      }
    }
  }

  lemma StitchPairLinked(m: Store, q: seq<View>, j: nat)
    requires 1 <= j < |q| && Linked(m, q)
    ensures Linked(m, StitchPair(q, j))
  {
    var b1, b0, r := q[j], q[j - 1], StitchPair(q, j);
    if r != q {
      assert Honest(m, b1);
      AliasShift(m, b1.last.value, b1.Get(0), b1.length);
      assert r[j].last.value == b1.last.value.At(b1.length);
      assert r[j].Get(0) == b1.Get(0).At(b1.length);
      assert Honest(m, r[j]);
      assert r[j - 1].Get(0) == b0.Get(0);
      forall k | 1 <= k < |r| && Honest(m, q[k])
        ensures Honest(m, r[k])
      {
        assert k != j && k != j - 1 ==> r[k] == q[k];
      }
    }
  }

  /** A grown front reads the drained view's bytes through the mark; the drained view's
      own bytes become the bytes before its empty window. */
  lemma StitchedCarries(m: Store, b0: View, b1: View, s: seq<byte>, p: nat)
    requires Carries(m, b0, s, p) && Carries(m, b1, s, p + b0.length)
    requires b1.last == Some(b0.End()) && Honest(m, b1)
    ensures var grown := b0.(length := b0.length + b1.length);
            && Carries(m, grown, s, p)
            && Carries(m, b1.(offset := b1.offset + b1.length, length := 0, last := Some(grown.End())),
                       s, p + b0.length + b1.length)
  {
    var grown := b0.(length := b0.length + b1.length);
    forall d {:trigger grown.base.At(d)} | 0 <= d < grown.offset + grown.length && grown.offset <= p + d
      ensures Peek(m, grown.base.At(d)) == s[p + d - grown.offset]
    {
      var k := d - (b0.offset + b0.length);
      if k < 0 {
        assert b0.base.At(d) == grown.base.At(d);
      } else {
        AliasShift(m, b1.last.value, b1.Get(0), k);
        assert b0.End().At(k) == grown.base.At(d);
        assert b1.Get(0).At(k) == b1.base.At(b1.offset + k);
        assert Peek(m, b1.base.At(b1.offset + k)) == s[p + b0.length + k];
      }
    }
    var drained := b1.(offset := b1.offset + b1.length, length := 0, last := Some(grown.End()));
    forall d {:trigger drained.base.At(d)} | 0 <= d < drained.offset && drained.offset <= p + grown.length + d
      ensures Peek(m, drained.base.At(d)) == s[p + grown.length + d - drained.offset]
    {
      assert drained.base.At(d) == b1.base.At(d);
    }
  }

  lemma {:induction false} StitchDownKeeps(m: Store, q: seq<View>, s: seq<byte>, c: nat, j: nat)
    requires (j < |q| || j == 0) && Holds(m, q, s, c) && Linked(m, q)
    ensures Holds(m, StitchDown(q, j), s, c) && Linked(m, StitchDown(q, j))
    decreases j
  {
    hide Holds;
    hide Linked;
    if j > 0 {
      StitchPairHolds(m, q, s, c, j);
      StitchPairLinked(m, q, j);
      StitchDownKeeps(m, StitchPair(q, j), s, c, j - 1);
    }
  }

  lemma DropKeeps(m: Store, q: seq<View>, s: seq<byte>, c: nat)
    requires |q| >= 2 && Holds(m, q, s, c) && Linked(m, q)
    ensures Holds(m, DropStitchedBack(q), s, c) && Linked(m, DropStitchedBack(q))
  {
    var r := DropStitchedBack(q);
    if |r| < |q| {
      var at := Starts(q, c);
      StartsUnique(r, c, at[..|q|]);
      assert r[0] == q[0];
    }
  }

  lemma AppendStarts(q: seq<View>, v: View, c: nat)
    ensures Starts(q + [v], c) == Starts(q, c) + [c + Total(q) + v.length]
    ensures Total(q + [v]) == Total(q) + v.length
  {
    var w := q + [v];
    var at := Starts(q, c) + [c + Total(q) + v.length];
    forall j {:trigger w[j]} | 0 <= j < |w|
      ensures at[j + 1] == at[j] + w[j].length
    {
      if j < |q| { assert Starts(q, c)[j + 1] == Starts(q, c)[j] + q[j].length; }
    }
    StartsUnique(w, c, at);
  }

  lemma AppendHolds(m: Store, q: seq<View>, s: seq<byte>, c: nat, v: View, data: seq<byte>)
    requires Holds(m, q, s, c) && |data| == v.length && Carries(m, v, s + data, |s|)
    ensures Holds(m, q + [v], s + data, c)
  {
    var w := q + [v];
    AppendStarts(q, v, c);
    forall j | 0 <= j < |w|
      ensures Carries(m, w[j], s + data, Starts(w, c)[j])
    {
      if j < |q| { assert Carries(m, q[j], s, Starts(q, c)[j]); }
    }
  }

  /** Push appends exactly the view's bytes, given what a producer promises: the bytes
      before the window are the stream before it, and the mark names the window's start. */
  lemma PushKeeps(m: Store, q: seq<View>, s: seq<byte>, c: nat, v: View, data: seq<byte>)
    requires Holds(m, q, s, c) && Linked(m, q)
    requires |data| == v.length && Carries(m, v, s + data, |s|) && Honest(m, v)
    ensures Holds(m, Pushed(q, v), s + data, c) && Linked(m, Pushed(q, v))
  {
    if v.length == 0 {
      assert s + data == s;
    } else {
      AppendHolds(m, q, s, c, v, data);
      var w := q + [v];
      if q == [] {
        assert w == [v];
      } else {
        assert w[0] == q[0];
        assert Linked(m, w);
        StitchDownKeeps(m, w, s + data, c, |q|);
        DropKeeps(m, StitchDown(w, |q|), s + data, c);
      }
    }
  }

  // ---------------------------------------------------------------- consume

  lemma AdvanceCarries(m: Store, v: View, s: seq<byte>, p: nat, n: nat)
    requires Carries(m, v, s, p) && n <= v.length
    ensures Carries(m, Advanced(v, n), s, p + n)
  {
    var w := Advanced(v, n);
    forall d {:trigger w.base.At(d)} | 0 <= d < w.offset + w.length && w.offset <= p + n + d
      ensures Peek(m, w.base.At(d)) == s[p + n + d - w.offset]
    {
      assert w.base.At(d) == v.base.At(d);
    }
  }

  /** Marks stay honest when the front goes, and when it changes only its window. */
  lemma LinkedFront(m: Store, q: seq<View>, v: View)
    requires Linked(m, q) && q != [] && (v.last == None) == (q[0].last == None)
    ensures Linked(m, q[1..]) && HonestFrom(m, q[1..], 1)
    ensures Linked(m, [v] + q[1..])
  {
    forall j | 1 <= j < |q| - 1
      ensures Honest(m, q[1..][j])
    {
      assert q[1..][j] == q[j + 1];
    }
    forall j | 1 <= j < |q| && Honest(m, q[j])
      ensures Honest(m, ([v] + q[1..])[j])
    {
      assert ([v] + q[1..])[j] == q[j];
    }
  }

  lemma ShortenKeeps(m: Store, q: seq<View>, s: seq<byte>, c: nat, n: nat)
    requires Holds(m, q, s, c) && Linked(m, q) && q != [] && n <= q[0].length
    ensures Holds(m, Shortened(q, n), s, c + n) && Linked(m, Shortened(q, n))
  {
    hide Carries;
    hide Honest;
    TailHolds(m, q, s, c);
    LinkedFront(m, q, Advanced(q[0], n));
    if n < q[0].length {
      assert Carries(m, q[0], s, Starts(q, c)[0]);
      AdvanceCarries(m, q[0], s, c, n);
      ConsHolds(m, Advanced(q[0], n), q[1..], s, c + n);
    }
  }

  /** Un-stitching moves the front's window into the bytes before the next view's window;
      sound because those are the preceding stream bytes. */
  lemma UnstitchHolds(m: Store, q: seq<View>, s: seq<byte>, c: nat)
    requires Holds(m, q, s, c)
    ensures Holds(m, Unstitched(q), s, c)
  {
    hide Carries;
    hide Holds;
    hide Total;
    if Unstitched(q) != q {
      var b0, tail := q[0], q[1..];
      var b1 := tail[0];
      var back := b1.(offset := b1.offset - b0.length, length := b1.length + b0.length);
      TailHolds(m, q, s, c);
      FrontCarries(m, tail, s, c + b0.length);
      RewindCarries(m, b1, s, c, b0.length);
      TailHolds(m, tail, s, c + b0.length);
      ConsHolds(m, back, tail[1..], s, c);
      assert tail[1..] == q[2..];
    }
  }

  lemma UnstitchLinked(m: Store, q: seq<View>)
    requires Linked(m, q)
    ensures Linked(m, Unstitched(q))
  {
    hide Honest;
    if Unstitched(q) != q {
      var tail := q[1..];
      var back := tail[0].(offset := tail[0].offset - q[0].length, length := tail[0].length + q[0].length);
      LinkedFront(m, q, q[0]);
      LinkedFront(m, tail, back);
      assert Unstitched(q) == [back] + tail[1..];
    }
  }

  lemma RewindCarries(m: Store, v: View, s: seq<byte>, p: nat, n: nat)
    requires Carries(m, v, s, p + n) && n <= v.offset
    ensures Carries(m, v.(offset := v.offset - n, length := v.length + n), s, p)
  {
    var w := v.(offset := v.offset - n, length := v.length + n);
    forall d {:trigger w.base.At(d)} | 0 <= d < w.offset + w.length && w.offset <= p + d
      ensures Peek(m, w.base.At(d)) == s[p + d - w.offset]
    {
      assert w.base.At(d) == v.base.At(d);
    }
  }

  /** Consume removes exactly the first n bytes. */
  lemma ConsumeKeeps(m: Store, q: seq<View>, s: seq<byte>, c: nat, n: nat)
    requires Holds(m, q, s, c) && Linked(m, q) && q != [] && n <= q[0].length
    ensures Holds(m, Consumed(q, n), s, c + n) && Linked(m, Consumed(q, n))
  {
    ShortenKeeps(m, q, s, c, n);
    UnstitchHolds(m, Shortened(q, n), s, c + n);
    UnstitchLinked(m, Shortened(q, n));
  }

  // ---------------------------------------------------------------- accumulate

  /** A write into memory that v does not use leaves what v carries. */
  lemma CarriesElsewhere(m: Store, v: View, s: seq<byte>, p: nat, a: Address, data: seq<byte>)
    requires Carries(m, v, s, p) && v.base.mem != a.mem
    ensures Carries(Write(m, a, data), v, s, p)
  {
    WriteShape(m, a, data);
    var m' := Write(m, a, data);
    forall d {:trigger v.base.At(d)} | 0 <= d < v.offset + v.length && v.offset <= p + d
      ensures Peek(m', v.base.At(d)) == s[p + d - v.offset]
    {
      WriteElsewhere(m, a, data, v.base.At(d));
    }
  }

  lemma HoldsElsewhere(m: Store, q: seq<View>, s: seq<byte>, c: nat, a: Address, data: seq<byte>)
    requires Holds(m, q, s, c) && forall v :: v in q ==> v.base.mem != a.mem
    ensures Holds(Write(m, a, data), q, s, c)
  {
    hide Carries;
    forall j | 0 <= j < |q|
      ensures Carries(Write(m, a, data), q[j], s, Starts(q, c)[j])
    {
      CarriesElsewhere(m, q[j], s, Starts(q, c)[j], a, data);
    }
  }

  /** Marks are about addresses, not cell values. */
  lemma HonestShape(m: Store, m': Store, q: seq<View>, k: nat)
    requires SameShape(m, m') && HonestFrom(m, q, k)
    ensures HonestFrom(m', q, k)
  {
    forall j | k <= j < |q|
      ensures Honest(m', q[j])
    {
      assert Honest(m, q[j]);
    }
  }

  lemma LinkedShape(m: Store, m': Store, q: seq<View>)
    requires SameShape(m, m') && Linked(m, q)
    ensures Linked(m', q)
  {
    if q != [] && q[0].last == None { HonestShape(m, m', q, 2); } else { HonestShape(m, m', q, 1); }
  }

  /** The accumulation buffer: flat memory of its own, filled from its start. */
  ghost predicate AccReady(m: Store, acc: View, q: seq<View>, free: nat) {
    && acc.base.mem in m && m[acc.base.mem].Flat?
    && |m[acc.base.mem].cells| > 0
    && acc.base.pos + acc.offset + acc.length + free <= |m[acc.base.mem].cells|
    && acc.offset == 0 && acc.last == None
    && forall v :: v in q ==> v.base.mem != acc.base.mem
  }

  /** Copying n front bytes behind the accumulated ones extends what acc carries. */
  lemma CopyCarries(m: Store, acc: View, f: View, s: seq<byte>, p: nat, n: nat)
    requires AccReady(m, acc, [f], n) && n <= f.length
    requires Carries(m, acc, s, p) && Carries(m, f, s, p + acc.length)
    ensures Carries(Write(m, acc.End(), Read(m, f.Get(0), n)), acc.(length := acc.length + n), s, p)
  {
    var data := Read(m, f.Get(0), n);
    var m' := Write(m, acc.End(), data);
    var acc' := acc.(length := acc.length + n);
    WriteShape(m, acc.End(), data);
    forall d {:trigger acc'.base.At(d)} | 0 <= d < acc'.offset + acc'.length && acc'.offset <= p + d
      ensures Peek(m', acc'.base.At(d)) == s[p + d - acc'.offset]
    {
      var k := d - acc.length;
      if k < 0 {
        WriteElsewhere(m, acc.End(), data, acc.base.At(d));
      } else {
        assert Writable(m, acc.End(), n);
        WriteAt(m, acc.End(), data, k);
        assert acc.End().At(k) == acc.base.At(d);
        assert f.Get(0).At(k) == f.base.At(f.offset + k);
      }
    }
  }

  lemma GatherUnfold(g: Gathering, free: nat)
    ensures Gather(g, free) == if g.queue == [] || free == 0 then g
                               else Gather(GatherStep(g, free), free - Min(g.queue[0].length, free))
  {
    hide GatherStep;
  }

  /** What one copy round does to the lengths. */
  lemma GatherStepShape(g: Gathering, free: nat)
    requires g.queue != []
    ensures var q, n, h := g.queue, Min(g.queue[0].length, free), GatherStep(g, free);
            && h.acc == g.acc.(length := g.acc.length + n)
            && Total(q) == n + Total(h.queue)
            && (n == q[0].length ==> h.queue == q[1..])
            && (n < q[0].length ==> n == free && |h.queue| == |q| && h.queue[1..] == q[1..]
                                    && h.queue[0].length == q[0].length - n)
  {
    hide Write;
    hide Read;
  }

  /** One copy round keeps the stream; the round that pops also restores honest marks. */
  lemma GatherStepKeeps(g: Gathering, free: nat, s: seq<byte>, c: nat)
    requires g.queue != [] && free > 0 && AccReady(g.mem, g.acc, g.queue, free)
    requires Carries(g.mem, g.acc, s, c) && Holds(g.mem, g.queue, s, c + g.acc.length)
    ensures var n := Min(g.queue[0].length, free);
            var h := GatherStep(g, free);
            && AccReady(h.mem, h.acc, h.queue, free - n)
            && Carries(h.mem, h.acc, s, c) && Holds(h.mem, h.queue, s, c + h.acc.length)
            && SameShape(g.mem, h.mem)
            && h.acc.length == g.acc.length + n
            && Total(g.queue) == n + Total(h.queue)
  {
    hide Carries;
    hide Holds;
    hide Write;
    var f, n, h := g.queue[0], Min(g.queue[0].length, free), GatherStep(g, free);
    var data := Read(g.mem, f.Get(0), n);
    FrontCarries(g.mem, g.queue, s, c + g.acc.length);
    WriteShape(g.mem, g.acc.End(), data);
    CopyCarries(g.mem, g.acc, f, s, c, n);
    HoldsElsewhere(g.mem, g.queue, s, c + g.acc.length, g.acc.End(), data);
    TailHolds(h.mem, g.queue, s, c + g.acc.length);
    if n < f.length {
      FrontCarries(h.mem, g.queue, s, c + g.acc.length);
      AdvanceCarries(h.mem, f, s, c + g.acc.length, n);
      var f' := Advanced(f, n).(last := Some(h.acc.End()));
      MarkIrrelevant(h.mem, Advanced(f, n), f', s, c + h.acc.length);
      ConsHolds(h.mem, f', g.queue[1..], s, c + h.acc.length);
      assert h.queue[1..] == g.queue[1..];
    }
  }

  lemma MarkIrrelevant(m: Store, v: View, w: View, s: seq<byte>, p: nat)
    requires Carries(m, v, s, p) && w == v.(last := w.last)
    ensures Carries(m, w, s, p)
  {
    assert w.base == v.base;
  }

  lemma {:induction false} GatherKeeps(g: Gathering, free: nat, s: seq<byte>, c: nat)
    requires AccReady(g.mem, g.acc, g.queue, free)
    requires Carries(g.mem, g.acc, s, c) && Holds(g.mem, g.queue, s, c + g.acc.length)
    ensures var h := Gather(g, free);
            && Carries(h.mem, h.acc, s, c) && Holds(h.mem, h.queue, s, c + h.acc.length)
            && SameShape(g.mem, h.mem)
            && h.acc == g.acc.(length := g.acc.length + Min(free, Total(g.queue)))
    decreases |g.queue|, free
  {
    hide Carries;
    hide Holds;
    hide AccReady;
    hide GatherStep;
    if g.queue != [] && free > 0 {
      GatherStepShape(g, free);
      GatherStepKeeps(g, free, s, c);
      GatherKeeps(GatherStep(g, free), free - Min(g.queue[0].length, free), s, c);
    }
  }

  /** The copy loop changes no memory but the accumulation buffer's. */
  lemma {:induction false} GatherElsewhere(g: Gathering, free: nat, x: Address)
    requires x.mem != g.acc.base.mem
    ensures Peek(Gather(g, free).mem, x) == Peek(g.mem, x)
    decreases |g.queue|, free
  {
    if g.queue != [] && free > 0 {
      var n := Min(g.queue[0].length, free);
      WriteElsewhere(g.mem, g.acc.End(), Read(g.mem, g.queue[0].Get(0), n), x);
      GatherElsewhere(GatherStep(g, free), free - n, x);
    }
  }

  lemma {:induction false} GatherHonest(g: Gathering, free: nat)
    requires HonestFrom(g.mem, g.queue, 1)
          || (g.queue != [] && 0 < free && g.queue[0].length <= free && HonestFrom(g.mem, g.queue, 2))
    ensures HonestFrom(Gather(g, free).mem, Gather(g, free).queue, 1)
    decreases |g.queue|, free
  {
    hide Honest;
    if g.queue != [] && free > 0 {
      var n, h := Min(g.queue[0].length, free), GatherStep(g, free);
      WriteShape(g.mem, g.acc.End(), Read(g.mem, g.queue[0].Get(0), n));
      HonestShape(g.mem, h.mem, g.queue, 2);
      if n == g.queue[0].length {
        forall j | 1 <= j < |h.queue| ensures h.queue[j] == g.queue[j + 1] {}
      } else {
        HonestShape(g.mem, h.mem, g.queue, 1);
        forall j | 1 <= j < |h.queue| ensures h.queue[j] == g.queue[j] {}
      }
      GatherHonest(h, free - n);
    }
  }

  lemma {:induction false} LengthInTotal(q: seq<View>, j: nat)
    requires j < |q|
    ensures q[j].length <= Total(q)
  {
    if j > 0 { LengthInTotal(q[1..], j - 1); }
  }

  /** How much the copy loop takes, and when it empties the queue: fewer bytes than free
      space, or just as many with no drained view behind the last of them. */
  lemma {:induction false} GatherLengths(g: Gathering, free: nat)
    ensures var q, h := g.queue, Gather(g, free);
            && h.acc == g.acc.(length := g.acc.length + Min(free, Total(q)))
            && |h.queue| <= |q|
            && (q != [] && 0 < free && q[0].length <= free ==> |h.queue| < |q|)
            && (h.queue == [] <==> q == [] || Total(q) < free
                                   || (Total(q) == free && 0 < free && q[|q| - 1].length > 0))
    decreases |g.queue|, free
  {
    hide GatherStep;
    var q := g.queue;
    if q != [] && free > 0 {
      var n, h := Min(q[0].length, free), GatherStep(g, free);
      GatherStepShape(g, free);
      GatherLengths(h, free - n);
      if |h.queue| > 0 {
        LengthInTotal(h.queue, |h.queue| - 1);
        if |q| > 1 { assert h.queue[|h.queue| - 1] == q[|q| - 1]; }
      }
    } else if q == [] {
      assert Total(q) == 0;
    }
  }

  /** Accumulation: the copied buffer goes in front of what is left. */
  function Accumulated(m: Store, q: seq<View>, acc: View, free: nat): Gathering {
    var h := Gather(Gathering(q, acc, m), free);
    h.(queue := [h.acc] + h.queue)
  }

  /** Accumulation changes no byte of the stream, makes the front as large as it can,
      and never needs more room in the queue than it frees. */
  lemma AccumulateHolds(m: Store, q: seq<View>, acc: View, free: nat, s: seq<byte>, c: nat)
    requires Holds(m, q, s, c) && AccReady(m, acc, q, free) && acc.length == 0
    ensures var h := Accumulated(m, q, acc, free);
            && Holds(h.mem, h.queue, s, c)
            && SameShape(m, h.mem)
            && h.queue[0].length == Min(free, Total(q))
            && |h.queue| <= |q| + 1
            && (q != [] && 0 < free && q[0].length <= free ==> |h.queue| <= |q|)
  {
    hide Carries;
    hide Holds;
    hide Gather;
    hide AccReady;
    hide SameShape;
    hide Total;
    var g := Gathering(q, acc, m);
    var h := Gather(g, free);
    HoldsWithin(m, q, s, c);
    EmptyCarries(m, acc, q, free, s, c);
    GatherKeeps(g, free, s, c);
    GatherLengths(g, free);
    ConsHolds(h.mem, h.acc, h.queue, s, c);
  }

  lemma HoldsWithin(m: Store, q: seq<View>, s: seq<byte>, c: nat)
    requires Holds(m, q, s, c)
    ensures c + Total(q) == |s|
  {
  }

  lemma EmptyCarries(m: Store, acc: View, q: seq<View>, free: nat, s: seq<byte>, c: nat)
    requires AccReady(m, acc, q, free) && acc.length == 0 && c <= |s|
    ensures Carries(m, acc, s, c)
  {
  }

  lemma AccumulateLinked(m: Store, q: seq<View>, acc: View, free: nat)
    requires Linked(m, q) && q != [] && acc.last == None
    requires 0 < free && q[0].length <= free
    ensures Linked(Accumulated(m, q, acc, free).mem, Accumulated(m, q, acc, free).queue)
  {
    hide Honest;
    hide Gather;
    var g := Gathering(q, acc, m);
    var h := Gather(g, free);
    GatherHonest(g, free);
    GatherLengths(g, free);
    HonestCons(h.mem, h.acc, h.queue);
  }

  lemma HonestCons(m: Store, v: View, q: seq<View>)
    requires HonestFrom(m, q, 1) && v.last == None
    ensures Linked(m, [v] + q)
  {
    hide Honest;
    forall j | 2 <= j < |q| + 1
      ensures Honest(m, ([v] + q)[j])
    {
      assert ([v] + q)[j] == q[j - 1];
    }
  }

  /** Whole items of the accumulation buffer. */
  function FreeBytes(maximum: nat, item: nat): (r: nat)
    requires item > 0
    ensures r <= maximum && r % item == 0
    ensures r == maximum <==> maximum % item == 0
  {
    var r := maximum / item * item;
    assert r % item == 0 by { ModPeriod(0, maximum / item, item); }
    r
  }

  lemma MultiplesBelow(n: nat, maximum: nat, item: nat)
    requires item > 0 && n <= maximum && n % item == 0
    ensures n <= FreeBytes(maximum, item)
  {
    var k, t := n / item, maximum / item;
    if k > t {
      assert k * item == (k - t) * item + t * item;
      MulAtLeast(k - t, item);
    } else {
      assert t * item == (t - k) * item + k * item;
      if t > k { MulAtLeast(t - k, item); }
    }
  }

  /** ASSERT(is_accumulated) holds exactly when the queue was emptied or the item size
      divides the maximum. */
  lemma AccumulateAssertion(m: Store, q: seq<View>, acc: View, maximum: nat, item: nat)
    requires item > 0 && q != [] && acc.length == 0
    requires 0 < FreeBytes(maximum, item) && q[0].length <= FreeBytes(maximum, item)
    ensures var free := FreeBytes(maximum, item);
            IsAccumulated(Accumulated(m, q, acc, free).queue, maximum)
            <==> || Total(q) < free
                 || (Total(q) == free && q[|q| - 1].length > 0)
                 || maximum % item == 0
  {
    hide Gather;
    hide FreeBytes;
    var free := FreeBytes(maximum, item);
    var h := Gather(Gathering(q, acc, m), free);
    GatherLengths(Gathering(q, acc, m), free);
    assert Accumulated(m, q, acc, free).queue == [h.acc] + h.queue;
  }
}
