/** What stitching is for: windows that continue each other end up in one view, and a reader of
    the front sees them as one. */
module Stitching {
  import opened Results
  import opened Memory
  import opened Views

  /** b continues a: its mark is a's end, and a is no accumulated buffer. */
  predicate Follows(a: View, b: View) {
    a.last != None && b.last == Some(a.End())
  }

  /** No two neighbours could be one view. */
  ghost predicate Joined(q: seq<View>) {
    forall j {:trigger q[j]} :: 1 <= j < |q| ==> !(Follows(q[j - 1], q[j]) && q[j].length > 0)
  }

  /** Stitching a pair again, or one that does not belong together, changes nothing. */
  lemma PairSettled(q: seq<View>, j: nat)
    requires 1 <= j < |q| && !(Follows(q[j - 1], q[j]) && q[j].length > 0)
    ensures StitchPair(q, j) == q
  {
    if Follows(q[j - 1], q[j]) {
      assert q[j - 1].(length := q[j - 1].length + q[j].length) == q[j - 1];
    }
  }

  lemma {:induction false} DownSettled(q: seq<View>, j: nat)
    requires j < |q| || j == 0
    requires forall i {:trigger q[i]} :: 1 <= i <= j ==> !(Follows(q[i - 1], q[i]) && q[i].length > 0)
    ensures StitchDown(q, j) == q
    decreases j
  {
    if j > 0 {
      assert !(Follows(q[j - 1], q[j]) && q[j].length > 0);
      PairSettled(q, j);
      DownSettled(q, j - 1);
    }
  }

  /** A pair once stitched is settled, and so stays the pair behind it. */
  lemma PairSettles(q: seq<View>, j: nat)
    requires 1 <= j < |q|
    requires forall i {:trigger q[i]} :: j < i < |q| ==> !(Follows(q[i - 1], q[i]) && q[i].length > 0)
    ensures var r := StitchPair(q, j);
      forall i {:trigger r[i]} :: j <= i < |r| ==> !(Follows(r[i - 1], r[i]) && r[i].length > 0)
  {
    var r := StitchPair(q, j);
    forall i {:trigger r[i]} | j <= i < |r| ensures !(Follows(r[i - 1], r[i]) && r[i].length > 0) {
      if i > j {
        assert r[i] == q[i] && r[i - 1].End() == q[i - 1].End();
        assert !(Follows(q[i - 1], q[i]) && q[i].length > 0);
      }
    }
  }

  lemma {:induction false} DownJoins(q: seq<View>, j: nat)
    requires j < |q| || j == 0
    requires forall i {:trigger q[i]} :: j < i < |q| ==> !(Follows(q[i - 1], q[i]) && q[i].length > 0)
    ensures Joined(StitchDown(q, j))
    decreases j
  {
    if j > 0 {
      PairSettles(q, j);
      DownJoins(StitchPair(q, j), j - 1);
    }
  }

  /** The stitching loop leaves no two neighbours that could be joined. */
  lemma LoopJoins(q: seq<View>)
    requires |q| >= 2
    ensures Joined(DropStitchedBack(StitchDown(q, |q| - 1)))
  {
    DownJoins(q, |q| - 1);
    hide StitchDown;
  }

  /** And so does any push that adds bytes. */
  lemma PushJoins(q: seq<View>, v: View)
    requires v.length > 0
    ensures Joined(Pushed(q, v))
  {
    if q != [] {
      LoopJoins(q + [v]);
    }
  }

  /** What does not continue the last view is queued behind it as it is. */
  lemma PushApart(q: seq<View>, v: View)
    requires Joined(q) && v.length > 0 && (q != [] ==> !Follows(q[|q| - 1], v))
    ensures Pushed(q, v) == q + [v]
  {
    if q != [] {
      var w := q + [v];
      forall i {:trigger w[i]} | 1 <= i <= |q| ensures !(Follows(w[i - 1], w[i]) && w[i].length > 0) {
        if i < |q| {
          assert !(Follows(q[i - 1], q[i]) && q[i].length > 0);
        }
      }
      DownSettled(w, |q|);
    }
  }

  /** From q to r the k-th view grew by n bytes; those behind it are empty in both. */
  ghost predicate Grew(q: seq<View>, r: seq<View>, k: nat, n: nat) {
    && k < |q| <= |r| && (forall i :: 0 <= i < k ==> r[i] == q[i]) && r[k] == q[k].(length := q[k].length + n)
    && (forall i :: k < i < |q| ==> q[i].length == 0 && SameBuffer(r[i], q[i]))
    && (forall i :: k < i < |r| ==> r[i].length == 0)
  }

  /** On the way down: n bytes are in the j-th view, those behind it are empty, and those before
      it are as they were. */
  ghost predicate Carrying(q: seq<View>, w: seq<View>, j: nat, n: nat) {
    && j <= |q| < |w| && n > 0 && (forall i :: 0 <= i < j ==> w[i] == q[i]) && w[j].length == n
    && (forall i :: j <= i < |q| ==> q[i].length == 0 && SameBuffer(w[i], q[i]))
    && (forall i :: j < i < |w| ==> w[i].length == 0)
  }

  lemma CarriedOver(q: seq<View>, w: seq<View>, j: nat, n: nat)
    requires Carrying(q, w, j, n) && 1 <= j && Follows(w[j - 1], w[j])
    ensures var z := StitchPair(w, j);
      && Grew(q, z, j - 1, n) && |z| == |w| && SameBuffer(z[|q|], w[|q|])
      && (q[j - 1].length == 0 ==> Carrying(q, z, j - 1, n))
  {
  }

  lemma CarriedAsFar(q: seq<View>, z: seq<View>, j: nat, n: nat)
    requires Joined(q) && Grew(q, z, j, n) && (j > 0 ==> !Follows(z[j - 1], z[j]))
    ensures StitchDown(z, j) == z
  {
    forall i {:trigger z[i]} | 1 <= i <= j ensures !(Follows(z[i - 1], z[i]) && z[i].length > 0) {
      if i < j {
        assert z[i] == q[i] && z[i - 1] == q[i - 1];
      }
    }
    DownSettled(z, j);
  }

  /** The bytes of the view at j move to the nearest view before it that is not empty, or to the
      first of those that continue each other. */
  lemma {:induction false} DownInto(q: seq<View>, w: seq<View>, j: nat, n: nat) returns (k: nat)
    requires Joined(q) && Carrying(q, w, j, n) && 1 <= j && Follows(w[j - 1], w[j])
    ensures |StitchDown(w, j)| == |w| && Grew(q, StitchDown(w, j), k, n) && SameBuffer(StitchDown(w, j)[|q|], w[|q|])
    ensures q[j - 1].length > 0 ==> k == j - 1
    decreases j
  {
    CarriedOver(q, w, j, n);
    var z := StitchPair(w, j);
    k := j - 1;
    assert StitchDown(w, j) == StitchDown(z, j - 1);
    if j > 1 && Follows(z[j - 2], z[j - 1]) {
      assert q[j - 1].length == 0 by {
        assert z[j - 2] == q[j - 2] && z[j - 1].last == q[j - 1].last;
      }
      hide Grew;
      hide Carrying;
      hide Joined;
      hide StitchPair;
      k := DownInto(q, z, j - 1, n);
    } else {
      CarriedAsFar(q, z, j - 1, n);
    }
  }

  /** What continues the last view is shown by a view before it: by the last one, if that is not
      empty. In the same buffer the queue does not grow. */
  lemma PushInto(q: seq<View>, v: View) returns (k: nat)
    requires Joined(q) && q != [] && v.length > 0 && Follows(q[|q| - 1], v)
    ensures Grew(q, Pushed(q, v), k, v.length)
    ensures |Pushed(q, v)| == |q| + if SameBuffer(v, q[|q| - 1]) then 0 else 1
    ensures q[|q| - 1].length > 0 ==> k == |q| - 1
  {
    var w := q + [v];
    k := DownInto(q, w, |q|, v.length);
    hide StitchDown;
    Dropped(q, StitchDown(w, |q|), k, v);
  }

  lemma Dropped(q: seq<View>, z: seq<View>, k: nat, v: View)
    requires q != [] && |z| == |q| + 1 && Grew(q, z, k, v.length) && SameBuffer(z[|q|], v)
    ensures Grew(q, DropStitchedBack(z), k, v.length)
    ensures |DropStitchedBack(z)| == |q| + if SameBuffer(v, q[|q| - 1]) then 0 else 1
  {
    assert SameBuffer(z[|q| - 1], q[|q| - 1]);
  }

  /** What a push makes of a queue. An empty buffer changes nothing. Otherwise no neighbours are
      left to be joined; and if none were there before, then a window that continues the last view
      is shown by a view before it, the last one unless that is empty, and takes no place in the
      queue if it is the same buffer; any other is queued behind as it is. */
  ghost predicate Stitched(q: seq<View>, v: View, r: seq<View>) {
    if v.length == 0 then r == q
    else
      && Joined(r)
      && (Joined(q) ==>
            if q != [] && Follows(q[|q| - 1], v) then
              && |r| == |q| + (if SameBuffer(v, q[|q| - 1]) then 0 else 1)
              && (exists k :: Grew(q, r, k, v.length) && (q[|q| - 1].length > 0 ==> k == |q| - 1))
            else r == q + [v])
  }

  lemma PushStitched(q: seq<View>, v: View)
    ensures Stitched(q, v, Pushed(q, v))
  {
    if v.length > 0 {
      PushJoins(q, v);
      if Joined(q) {
        if q != [] && Follows(q[|q| - 1], v) {
          var k := PushInto(q, v);
        } else {
          PushApart(q, v);
        }
      }
      hide Pushed;
      hide Joined;
      hide Grew;
    }
  }

  // ---------------------------------------------------------------- windows of one buffer

  /** Views that are pushed one after the other. */
  function PushedAll(q: seq<View>, vs: seq<View>): seq<View>
    decreases |vs|
  {
    if vs == [] then q else PushedAll(Pushed(q, vs[0]), vs[1..])
  }

  /** Windows of one buffer, none empty, each marked with the end of the one before. */
  ghost predicate Continuing(a: View, vs: seq<View>)
    decreases |vs|
  {
    a.length > 0 && a.last != None
    && (vs != [] ==> SameBuffer(vs[0], a) && vs[0].length > 0 && vs[0].last == Some(a.End())
                     && Continuing(a.(length := a.length + vs[0].length), vs[1..]))
  }

  /** However many windows of one buffer are posted in a row, work sees them as one view. */
  lemma {:induction false} OneView(q: seq<View>, a: View, vs: seq<View>)
    requires Joined(q + [a]) && Continuing(a, vs)
    ensures PushedAll(q + [a], vs) == q + [a.(length := a.length + Total(vs))]
    decreases |vs|
  {
    if vs == [] {
    } else {
      var b, w := a.(length := a.length + vs[0].length), q + [a];
      var k := PushInto(w, vs[0]);
      assert w[|w| - 1] == a;
      assert Pushed(w, vs[0]) == q + [b];
      PushJoins(w, vs[0]);
      hide Pushed;
      OneView(q, b, vs[1..]);
    }
  }

  // ---------------------------------------------------------------- un-stitching

  /** The view left in front of rest when left of it is not used up: alone, or widened backwards
      in the memory of the next one, which shows the same bytes before its window. */
  ghost predicate FrontOf(left: View, rest: seq<View>, r: seq<View>) {
    if rest != [] && rest[0].last == Some(left.End()) && left.length <= rest[0].offset then
      && r != [] && r[1..] == rest[1..] && SameBuffer(r[0], rest[0])
      && r[0].End() == rest[0].End() && r[0].length == left.length + rest[0].length && r[0].last == rest[0].last
    else r == [left] + rest
  }

  /** What using n bytes of the front leaves: the rest of it, or the views behind it if nothing is
      left; and of these the first two as one if the first lies in the bytes before the second's
      window. */
  ghost predicate LeftOver(q: seq<View>, n: nat, r: seq<View>)
    requires q != [] && n <= q[0].length
  {
    if n < q[0].length then FrontOf(q[0].(offset := q[0].offset + n, length := q[0].length - n), q[1..], r)
    else if |q| > 1 then FrontOf(q[1], q[2..], r)
    else r == []
  }

  lemma ConsumedExactly(q: seq<View>, n: nat)
    requires q != [] && n <= q[0].length
    ensures LeftOver(q, n, Consumed(q, n))
  {
    var s := Shortened(q, n);
    if n < q[0].length {
      assert s[1..] == q[1..] && (|s| > 1 ==> s[2..] == s[1..][1..] && s[1] == q[1..][0]);
    } else if |q| > 1 {
      assert s == [q[1]] + q[2..] && (|s| > 1 ==> s[2..] == q[2..][1..] && s[1] == q[2..][0]);
    }
  }

  lemma ConsumedInParts(q: seq<View>, n: nat)
    requires q != [] && n <= q[0].length
    ensures Consumed(q, n) == Unstitched(Shortened(q, n))
  {
    hide Unstitched;
    hide Shortened;
  }

  lemma FrontJoined(left: View, rest: seq<View>, r: seq<View>)
    requires FrontOf(left, rest, r) && Joined([left] + rest)
    ensures Joined(r)
  {
    var w := [left] + rest;
    if r != w {
      forall j {:trigger r[j]} | 1 <= j < |r| ensures !(Follows(r[j - 1], r[j]) && r[j].length > 0) {
        assert r[j] == r[1..][j - 1] && rest[1..][j - 1] == rest[j] && w[j + 1] == rest[j] && w[j] == rest[j - 1];
        assert j > 1 ==> r[j - 1] == r[1..][j - 2] && rest[1..][j - 2] == rest[j - 1];
      }
    }
  }

  /** Consuming leaves no neighbours to be joined either. */
  lemma ConsumedJoined(q: seq<View>, n: nat)
    requires Joined(q) && q != [] && n <= q[0].length
    ensures Joined(Consumed(q, n))
  {
    ConsumedExactly(q, n);
    hide Consumed;
    if n < q[0].length {
      var left := Advanced(q[0], n);
      assert Joined([left] + q[1..]);
      FrontJoined(left, q[1..], Consumed(q, n));
    } else if |q| > 1 {
      assert [q[1]] + q[2..] == q[1..];
      assert Joined(q[1..]);
      FrontJoined(q[1], q[2..], Consumed(q, n));
    }
  }
}
