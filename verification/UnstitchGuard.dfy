/** The un-stitch guard compares pointers and lengths only. This module states exactly when
    acting on it keeps the stream, and shows a queue where it does not: a buffer whose bytes
    before its window are not the preceding stream bytes. */
module UnstitchGuard {
  import opened Results
  import opened Memory
  import opened Views

  /** When the guard fires, the stream is kept if and only if the bytes before the second
      view's window are the bytes left in the front view. */
  lemma UnstitchExact(m: Store, q: seq<View>)
    requires Unstitched(q) != q
    ensures var b0, b1 := q[0], q[1];
            Contents(m, Unstitched(q)) == Contents(m, q)
            <==> Read(m, b1.base.At(b1.offset - b0.length), b0.length) == Read(m, b0.Get(0), b0.length)
  {
    var b0, b1, r := q[0], q[1], Unstitched(q);
    var before := Read(m, b1.base.At(b1.offset - b0.length), b0.length);
    var left, shown, rest := Read(m, b0.Get(0), b0.length), Read(m, b1.Get(0), b1.length), Contents(m, q[2..]);
    assert q[1..][1..] == q[2..] && r[1..] == q[2..];
    WindowSplit(m, r[0], b0.length);
    assert r[0].Get(0) == b1.base.At(b1.offset - b0.length);
    assert r[0].Get(b0.length) == b1.Get(0);
    assert Contents(m, r) == (before + shown) + rest;
    assert Contents(m, q[1..]) == shown + rest;
    assert Contents(m, q) == left + (shown + rest);
    SamePrefix(before, left, shown, rest);
  }

  lemma WindowSplit(m: Store, v: View, n: nat)
    requires n <= v.length
    ensures Read(m, v.Get(0), v.length) == Read(m, v.Get(0), n) + Read(m, v.Get(n), v.length - n)
  {
    forall d | n <= d < v.length
      ensures Read(m, v.Get(0), v.length)[d] == Read(m, v.Get(n), v.length - n)[d - n]
    {
      assert v.Get(0).At(d) == v.Get(n).At(d - n);
    }
  }

  lemma SamePrefix(a: seq<byte>, b: seq<byte>, c: seq<byte>, d: seq<byte>)
    requires |a| == |b|
    ensures (a + c) + d == b + (c + d) <==> a == b
  {
    if (a + c) + d == b + (c + d) {
      assert ((a + c) + d)[..|a|] == a;
      assert (b + (c + d))[..|a|] == b;
    }
    assert (a + c) + d == a + (c + d);
  }

  const ABC: seq<byte> := [97, 98, 99]
  const PQRS: seq<byte> := [112, 113, 114, 115]

  /** A queue of "abc" and of "rs", the latter a window into "pqrs". */
  const STORE: Store := map[1 := Flat(ABC), 2 := Flat(PQRS), 3 := Flat([0, 0, 0, 0])]
  const QUEUE: seq<View> := [View(1, Address(1, 0), 0, 3, None), View(2, Address(2, 0), 2, 2, None)]
  const ACC: View := View(3, Address(3, 0), 0, 0, None)

  /** Accumulating four bytes copies "abcr" and leaves "s"; using one byte then un-stitches
      "bcr" into the bytes "pqr", and the reader is shown "pqrs" where "bcrs" was queued. */
  lemma UnstitchWithoutHistory()
    ensures Contents(STORE, QUEUE) == [97, 98, 99, 114, 115]
    ensures var h := Accumulated(STORE, QUEUE, ACC, 4);
            && h.queue != [] && h.queue[0].length == 4
            && Contents(h.mem, Consumed(h.queue, 1)) == [112, 113, 114, 115]
  {
    WitnessContents();
    WitnessQueue();
    var h := Accumulated(STORE, QUEUE, ACC, 4);
    hide Gather;
    WitnessBytes();
    assert Contents(h.mem, [BACK]) == Read(h.mem, BACK.Get(0), 4) + Contents(h.mem, []);
  }

  /** What un-stitching leaves: all of "pqrs". */
  const BACK: View := View(2, Address(2, 0), 0, 4, Some(Address(3, 4)))

  /** The two copy rounds: all of the first view, then one byte of the second. */
  lemma WitnessRounds()
    ensures var h := Gather(Gathering(QUEUE, ACC, STORE), 4);
      h.queue == [View(2, Address(2, 0), 3, 1, Some(Address(3, 4)))] && h.acc == ACC.(length := 4)
  {
    hide Write;
    hide Read;
    var g0 := Gathering(QUEUE, ACC, STORE);
    var g1 := GatherStep(g0, 4);
    var g2 := GatherStep(g1, 1);
    GatherUnfold(g0, 4);
    assert QUEUE[1..] == [QUEUE[1]];
    assert g1.queue == [QUEUE[1]] && g1.acc == ACC.(length := 3);
    GatherUnfold(g1, 1);
    assert [QUEUE[1]][1..] == [];
    assert g2.queue == [View(2, Address(2, 0), 3, 1, Some(Address(3, 4)))] && g2.acc == ACC.(length := 4);
    GatherUnfold(g2, 0);
    hide Gather;
  }

  lemma WitnessQueue()
    ensures var h := Accumulated(STORE, QUEUE, ACC, 4);
            && h.queue != [] && h.queue[0].length == 4
            && Consumed(h.queue, 1) == [BACK]
  {
    WitnessRounds();
    hide Gather;
    var f, b := ACC.(length := 4), View(2, Address(2, 0), 3, 1, Some(Address(3, 4)));
    assert Accumulated(STORE, QUEUE, ACC, 4).queue == [f, b];
    assert Shortened([f, b], 1) == [Advanced(f, 1), b];
    assert [Advanced(f, 1), b][1..] == [b];
  }

  lemma WitnessBytes()
    ensures Read(Accumulated(STORE, QUEUE, ACC, 4).mem, BACK.Get(0), 4) == PQRS
  {
    var g0 := Gathering(QUEUE, ACC, STORE);
    hide Gather;
    forall d: nat | d < 4
      ensures Peek(Gather(g0, 4).mem, BACK.Get(0).At(d)) == PQRS[d]
    {
      GatherElsewhere(g0, 4, Address(2, d));
      assert BACK.Get(0).At(d) == Address(2, d);
    }
  }

  lemma WitnessContents()
    ensures Contents(STORE, QUEUE) == [97, 98, 99, 114, 115]
  {
    var x, b := QUEUE[0], QUEUE[1];
    assert Read(STORE, x.Get(0), 3) == ABC;
    assert Read(STORE, b.Get(0), 2) == [114, 115];
    assert QUEUE[1..] == [b] && [b][1..] == [];
    assert Contents(STORE, [b]) == Read(STORE, b.Get(0), 2) + Contents(STORE, []);
  }
}
