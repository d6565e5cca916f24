/** A pool producer and an input queue, joined: what RingLink proves of a ring, for flat buffers
    that are filled from their start and handed out again when nobody refers to them. */
module PoolLink {
  import opened Results
  import opened Memory
  import opened Views
  import opened Stitching
  import opened AuxPool
  import Ring = RingLink

  /** front: the memory of the pool's front buffer. used: its bytes posted since it came back.
      last: where they end, once there are any. flight: posted buffers in the consumer's mailbox.
      sent, got: every byte posted and consumed. arrived: how many were taken into the queue. */
  datatype Link = Link(
    mem: Store, front: nat, used: nat, last: Option<Address>, queue: seq<View>, flight: seq<View>,
    sent: seq<byte>, got: seq<byte>, arrived: nat)

  // ---------------------------------------------------------------- steps

  function Window(l: Link, n: nat): View {
    View(l.front, Address(l.front, 0), l.used, n, l.last)
  }

  /** Work writes behind the used bytes, and they are posted. */
  ghost predicate Post(l: Link, l': Link, data: seq<byte>) {
    && l.front in l.mem && l.used + |data| <= |l.mem[l.front].cells|
    && l' == l.(mem := Write(l.mem, Address(l.front, l.used), data), used := l.used + |data|,
                last := Some(Address(l.front, l.used + |data|)),
                flight := l.flight + [Window(l, |data|)], sent := l.sent + data)
  }

  /** The consumer's handler pushes the oldest posted buffer. */
  ghost predicate Deliver(l: Link, l': Link) {
    && l.flight != []
    && l' == l.(queue := Pushed(l.queue, l.flight[0]), flight := l.flight[1..], arrived := l.arrived + l.flight[0].length)
  }

  /** The front leaves the pool, and a returned buffer takes its place: no view shows its
      memory. */
  ghost predicate Turn(l: Link, l': Link, k: nat) {
    && k in l.mem && l.mem[k].Flat? && |l.mem[k].cells| > 0 && (forall v :: v in l.queue + l.flight ==> v.base.mem != k)
    && l' == l.(front := k, used := 0, last := None)
  }

  ghost predicate Use(l: Link, l': Link, n: nat) {
    && l.queue != [] && n <= l.queue[0].length
    && l' == l.(queue := Consumed(l.queue, n), got := l.got + Read(l.mem, l.queue[0].Get(0), n))
  }

  ghost predicate Gathered(l: Link, l': Link, acc: View, free: nat) {
    && l.queue != [] && 0 < free && l.queue[0].length <= free && acc.length == 0
    && acc.base.mem != l.front && AccReady(l.mem, acc, l.queue + l.flight, free)
    && var h := Accumulated(l.mem, l.queue, acc, free);
       l' == l.(queue := h.queue, mem := h.mem)
  }

  ghost predicate Allocate(l: Link, l': Link, k: nat, r: Region) {
    k !in l.mem && l' == l.(mem := l.mem[k := r])
  }

  ghost predicate Next(l: Link, l': Link) {
    || (exists data :: Post(l, l', data))
    || Deliver(l, l')
    || (exists k :: Turn(l, l', k))
    || (exists n :: Use(l, l', n))
    || (exists acc, free :: Gathered(l, l', acc, free))
    || (exists k, r :: Allocate(l, l', k, r))
  }

  ghost predicate Init(l: Link) {
    && l.front in l.mem && l.mem[l.front].Flat? && |l.mem[l.front].cells| > 0
    && l.used == 0 && l.last == None && l.queue == [] && l.flight == [] && l.sent == [] && l.got == [] && l.arrived == 0
  }

  ghost predicate Run(r: seq<Link>) {
    r != [] && Init(r[0]) && forall k {:trigger r[k + 1]} :: 0 <= k < |r| - 1 ==> Next(r[k], r[k + 1])
  }

  // ---------------------------------------------------------------- invariant

  /** The used bytes of memory k are the last bytes of the stream. */
  ghost predicate Recent(m: Store, k: nat, used: nat, s: seq<byte>) {
    forall d {:trigger Address(k, d)} :: 0 <= d < used && used <= |s| + d ==> Peek(m, Address(k, d)) == s[|s| - used + d]
  }

  /** Views of the front buffer start at its first byte. */
  ghost predicate Based(q: seq<View>, k: nat) {
    forall v :: v in q && v.base.mem == k ==> v.base.pos == 0
  }

  ghost predicate FrontOk(l: Link) {
    && l.front in l.mem && l.mem[l.front].Flat? && |l.mem[l.front].cells| > 0
    && l.used <= |l.mem[l.front].cells| && l.used <= |l.sent|
    && (l.last == None || l.last == Some(Address(l.front, l.used)))
    && Recent(l.mem, l.front, l.used, l.sent)
  }

  /** Stream position of the front buffer's first byte. */
  function Start(l: Link): map<nat, nat> {
    map[l.front := if l.used <= |l.sent| then |l.sent| - l.used else 0]
  }

  /** heard: the bytes taken in so far. */
  ghost predicate InvAt(l: Link, heard: seq<byte>) {
    && FrontOk(l) && |l.got| <= l.arrived && l.arrived + Total(l.flight) == |l.sent|
    && l.got == l.sent[..|l.got|] && heard == l.sent[..l.arrived]
    && Ring.QueueOk(l.mem, l.queue, heard, |l.got|, Start(l), l.front, 1)
    && Ring.FlightOk(l.mem, l.flight, l.sent, l.arrived, Start(l), l.front, 1)
    && Based(l.queue, l.front) && Based(l.flight, l.front)
  }

  ghost predicate Inv(l: Link) {
    l.arrived <= |l.sent| && InvAt(l, l.sent[..l.arrived])
  }

  // ---------------------------------------------------------------- the producer's promise

  /** The posted window keeps the promise push relies on if and only if the used bytes of its
      buffer are the last bytes of the stream. */
  lemma PromiseExact(m: Store, k: nat, used: nat, s: seq<byte>, data: seq<byte>, last: Option<Address>)
    requires k in m && m[k].Flat? && |m[k].cells| > 0 && used + |data| <= |m[k].cells|
    ensures var v := View(k, Address(k, 0), used, |data|, last);
      Carries(Write(m, Address(k, used), data), v, s + data, |s|) <==> Recent(m, k, used, s)
  {
    var v, m' := View(k, Address(k, 0), used, |data|, last), Write(m, Address(k, used), data);
    if Recent(m, k, used, s) {
      PromiseKept(m, k, used, s, data, v);
    }
    if Carries(m', v, s + data, |s|) {
      PromiseMeans(m, k, used, s, data, v);
    }
  }

  lemma PromiseKept(m: Store, k: nat, used: nat, s: seq<byte>, data: seq<byte>, v: View)
    requires k in m && m[k].Flat? && |m[k].cells| > 0 && used + |data| <= |m[k].cells|
    requires v.base == Address(k, 0) && v.offset == used && v.length == |data| && Recent(m, k, used, s)
    ensures Carries(Write(m, Address(k, used), data), v, s + data, |s|)
  {
    var m' := Write(m, Address(k, used), data);
    WriteShape(m, Address(k, used), data);
    hide Write;
    hide Peek;
    forall d {:trigger v.base.At(d)} | 0 <= d < used + |data| && used <= |s| + d
      ensures Peek(m', v.base.At(d)) == (s + data)[|s| + d - used]
    {
      FlatWriteAt(m, k, used, data, d);
    }
  }

  lemma PromiseMeans(m: Store, k: nat, used: nat, s: seq<byte>, data: seq<byte>, v: View)
    requires k in m && m[k].Flat? && |m[k].cells| > 0 && used + |data| <= |m[k].cells|
    requires v.base == Address(k, 0) && v.offset == used && v.length == |data|
    requires Carries(Write(m, Address(k, used), data), v, s + data, |s|)
    ensures Recent(m, k, used, s)
  {
    var m' := Write(m, Address(k, used), data);
    hide Write;
    hide Peek;
    forall d {:trigger Address(k, d)} | 0 <= d < used && used <= |s| + d
      ensures Peek(m, Address(k, d)) == s[|s| - used + d]
    {
      FlatWriteAt(m, k, used, data, d);
      assert v.base.At(d) == Address(k, d);
    }
  }

  /** A write behind the used bytes of flat memory: what is where afterwards. */
  lemma FlatWriteAt(m: Store, k: nat, used: nat, data: seq<byte>, d: nat)
    requires k in m && m[k].Flat? && |m[k].cells| > 0 && used + |data| <= |m[k].cells| && d < used + |data|
    ensures Peek(Write(m, Address(k, used), data), Address(k, d)) == if d < used then Peek(m, Address(k, d)) else data[d - used]
  {
    FlatWrite(m, k, used, data);
    if d >= used {
      var e: nat := d - used;
      assert Address(k, used + e) == Address(k, d);
    }
  }

  lemma FlatWrite(m: Store, k: nat, used: nat, data: seq<byte>)
    requires k in m && m[k].Flat? && |m[k].cells| > 0 && used + |data| <= |m[k].cells|
    ensures var m' := Write(m, Address(k, used), data);
      && SameShape(m, m')
      && (forall d: nat :: d < used ==> Peek(m', Address(k, d)) == Peek(m, Address(k, d)))
      && (forall e: nat :: e < |data| ==> Peek(m', Address(k, used + e)) == data[e])
  {
    var at := Address(k, used);
    WriteShape(m, at, data);
    assert Writable(m, at, |data|);
    forall d: nat | d < used ensures Peek(Write(m, at, data), Address(k, d)) == Peek(m, Address(k, d)) {
      WriteElsewhere(m, at, data, Address(k, d));
    }
    forall e: nat | e < |data| ensures Peek(Write(m, at, data), Address(k, used + e)) == data[e] {
      WriteAt(m, at, data, e);
      assert at.At(e) == Address(k, used + e);
    }
  }

  /** Bytes of a window of the front buffer lie below its used bytes' end. */
  lemma BelowUsed(l: Link, q: seq<View>, s: seq<byte>, c: nat, j: nat)
    requires FrontOk(l) && Holds(l.mem, q, s, c) && Ring.Rooted(q, c, Start(l), l.front, 1) && Based(q, l.front)
    requires |s| <= |l.sent| && j < |q| && q[j].base.mem == l.front
    ensures q[j].base.pos == 0 && q[j].offset + q[j].length <= l.used
  {
    var v, p := q[j], Starts(q, c)[j];
    assert v in q;
    assert Carries(l.mem, v, s, p);
    assert Ring.RootedAt(v, p, Start(l), l.front, 1);
  }

  /** The bytes work may write next are shown by no view of a queue rooted like that. */
  lemma Unshown(l: Link, q: seq<View>, s: seq<byte>, c: nat, v: View, d: nat, e: nat)
    requires FrontOk(l) && Holds(l.mem, q, s, c) && Ring.Rooted(q, c, Start(l), l.front, 1) && Based(q, l.front)
    requires |s| <= |l.sent| && v in q && d < v.offset + v.length && l.used + e < |l.mem[l.front].cells|
    ensures !Alias(l.mem, Address(l.front, l.used).At(e), v.base.At(d))
  {
    if v.base.mem == l.front {
      var j :| 0 <= j < |q| && q[j] == v;
      BelowUsed(l, q, s, c, j);
    }
  }

  // ---------------------------------------------------------------- posting

  lemma BasedWindows(q: seq<View>, z: seq<View>, k: nat)
    requires Based(q, k) && Rewindowed(q, z)
    ensures Based(z, k)
  {
    forall x | x in z && x.base.mem == k ensures x.base.pos == 0 {
      var i :| 0 <= i < |z| && z[i] == x;
      assert q[i] in q;
    }
  }

  lemma BasedDropped(z: seq<View>, k: nat)
    requires |z| >= 2 && Based(z, k)
    ensures Based(DropStitchedBack(z), k)
  {
  }

  lemma BasedPushed(q: seq<View>, v: View, k: nat)
    requires Based(q, k) && (v.base.mem == k ==> v.base.pos == 0)
    ensures Based(Pushed(q, v), k)
  {
    if v.length > 0 && q != [] {
      var w := q + [v];
      assert Based(w, k) && Aligned(w, 1);
      hide Based;
      StitchDownPool(w, |q|, 1);
      BasedWindows(w, StitchDown(w, |q|), k);
      BasedDropped(StitchDown(w, |q|), k);
    }
  }

  /** The write behind the used bytes is seen through no window. */
  lemma PostUnseen(l: Link, q: seq<View>, s: seq<byte>, c: nat, data: seq<byte>)
    requires FrontOk(l) && Holds(l.mem, q, s, c) && Ring.Rooted(q, c, Start(l), l.front, 1) && Based(q, l.front)
    requires |s| <= |l.sent| && l.used + |data| <= |l.mem[l.front].cells|
    ensures SameShape(l.mem, Write(l.mem, Address(l.front, l.used), data))
    ensures Holds(Write(l.mem, Address(l.front, l.used), data), q, s, c)
  {
    var at := Address(l.front, l.used);
    forall x, d: nat, e: nat {:trigger x.base.At(d), at.At(e)} | x in q && d < x.offset + x.length && e < |data|
      ensures !Alias(l.mem, at.At(e), x.base.At(d))
    {
      Unshown(l, q, s, c, x, d, e);
    }
    WriteShape(l.mem, at, data);
    hide Write;
    Ring.HoldsWrite(l.mem, q, s, c, at, data);
  }

  /** The posted window carries the next bytes, with an honest mark, rooted in its buffer. */
  lemma PostWindow(l: Link, data: seq<byte>)
    requires FrontOk(l) && l.used + |data| <= |l.mem[l.front].cells|
    ensures var m', v := Write(l.mem, Address(l.front, l.used), data), Window(l, |data|);
      Carries(m', v, l.sent + data, |l.sent|) && Honest(m', v) && Ring.RootedAt(v, |l.sent|, Start(l), l.front, 1)
  {
    PromiseExact(l.mem, l.front, l.used, l.sent, data, l.last);
    WriteShape(l.mem, Address(l.front, l.used), data);
    hide Write;
    hide Carries;
    hide Recent;
  }

  lemma PostQueue(l: Link, heard: seq<byte>, data: seq<byte>)
    requires FrontOk(l) && Ring.QueueOk(l.mem, l.queue, heard, |l.got|, Start(l), l.front, 1) && Based(l.queue, l.front)
    requires |heard| <= |l.sent| && l.used + |data| <= |l.mem[l.front].cells|
    ensures Ring.QueueOk(Write(l.mem, Address(l.front, l.used), data), l.queue, heard, |l.got|, Start(l), l.front, 1)
  {
    hide Holds;
    hide Linked;
    hide Ring.Rooted;
    hide Based;
    hide FrontOk;
    hide Start;
    hide Write;
    PostUnseen(l, l.queue, heard, |l.got|, data);
    LinkedShape(l.mem, Write(l.mem, Address(l.front, l.used), data), l.queue);
  }

  lemma PostFlight(l: Link, data: seq<byte>)
    requires FrontOk(l) && Ring.FlightOk(l.mem, l.flight, l.sent, l.arrived, Start(l), l.front, 1) && Based(l.flight, l.front)
    requires l.used + |data| <= |l.mem[l.front].cells| && l.arrived + Total(l.flight) == |l.sent|
    ensures var m', f := Write(l.mem, Address(l.front, l.used), data), l.flight + [Window(l, |data|)];
      Ring.FlightOk(m', f, l.sent + data, l.arrived, Start(l), l.front, 1) && Total(f) == Total(l.flight) + |data|
  {
    var m', v := Write(l.mem, Address(l.front, l.used), data), Window(l, |data|);
    assert v.length == |data|;
    hide Holds;
    hide HonestFrom;
    hide Ring.Rooted;
    hide Based;
    hide FrontOk;
    hide Start;
    hide Write;
    hide Window;
    hide Total;
    PostUnseen(l, l.flight, l.sent, l.arrived, data);
    PostWindow(l, data);
    FlightGrows(l.mem, m', l.flight, l.sent, l.arrived, v, data, Start(l), l.front);
  }

  /** A queue of posted buffers with one more behind it, in memory of the same shape. */
  lemma FlightGrows(m: Store, m': Store, f: seq<View>, s: seq<byte>, c: nat, v: View, data: seq<byte>, roots: map<nat, nat>, k: nat)
    requires SameShape(m, m') && Holds(m', f, s, c) && HonestFrom(m, f, 0) && Ring.Rooted(f, c, roots, k, 1)
    requires c + Total(f) == |s| && v.length == |data|
    requires Carries(m', v, s + data, |s|) && Honest(m', v) && Ring.RootedAt(v, |s|, roots, k, 1)
    ensures Ring.FlightOk(m', f + [v], s + data, c, roots, k, 1) && Total(f + [v]) == Total(f) + |data|
  {
    hide Holds;
    hide HonestFrom;
    hide Honest;
    hide Carries;
    hide Ring.Rooted;
    hide Ring.RootedAt;
    hide Total;
    AppendStarts(f, v, c);
    AppendHolds(m', f, s, c, v, data);
    HonestShape(m, m', f, 0);
    Ring.HonestAppend(m', f, v);
    Ring.RootedAppend(f, v, c, roots, k, 1);
  }

  lemma RecentExtends(m: Store, k: nat, used: nat, s: seq<byte>, data: seq<byte>)
    requires k in m && m[k].Flat? && |m[k].cells| > 0 && used + |data| <= |m[k].cells| && Recent(m, k, used, s)
    ensures Recent(Write(m, Address(k, used), data), k, used + |data|, s + data)
  {
    var m' := Write(m, Address(k, used), data);
    hide Write;
    hide Peek;
    forall d {:trigger Address(k, d)} | 0 <= d < used + |data| && used + |data| <= |s + data| + d
      ensures Peek(m', Address(k, d)) == (s + data)[|s| - used + d]
    {
      FlatWriteAt(m, k, used, data, d);
    }
  }

  lemma PostFront(l: Link, l': Link, data: seq<byte>)
    requires FrontOk(l) && Post(l, l', data)
    ensures FrontOk(l') && Start(l') == Start(l)
  {
    hide Write;
    hide Pushed;
    hide Recent;
    WriteShape(l.mem, Address(l.front, l.used), data);
    RecentExtends(l.mem, l.front, l.used, l.sent, data);
  }

  lemma PostMeans(l: Link, l': Link, data: seq<byte>)
    requires Post(l, l', data)
    ensures l.front in l.mem && l.used + |data| <= |l.mem[l.front].cells|
    ensures l'.mem == Write(l.mem, Address(l.front, l.used), data) && l'.queue == l.queue
    ensures l'.flight == l.flight + [Window(l, |data|)] && Window(l, |data|).base == Address(l.front, 0)
    ensures l'.front == l.front && l'.sent == l.sent + data && l'.got == l.got && l'.arrived == l.arrived
  {
    hide Write;
  }

  lemma PostKeeps(l: Link, l': Link, heard: seq<byte>, data: seq<byte>)
    requires InvAt(l, heard) && Post(l, l', data)
    ensures InvAt(l', heard)
  {
    hide *;
    InvMeans(l, heard);
    PostMeans(l, l', data);
    PostQueue(l, heard, data);
    PostFlight(l, data);
    PostFront(l, l', data);
    BasedBehind(l.flight, Window(l, |data|), l.front);
    Prefixed(l.sent, data, |l.got|);
    Prefixed(l.sent, data, l.arrived);
    InvFrom(l', heard);
  }

  lemma InvMeans(l: Link, heard: seq<byte>)
    requires InvAt(l, heard)
    ensures FrontOk(l) && |l.got| <= l.arrived <= |l.sent| && l.arrived + Total(l.flight) == |l.sent|
    ensures l.got == l.sent[..|l.got|] && heard == l.sent[..l.arrived] && |heard| == l.arrived
    ensures Ring.QueueOk(l.mem, l.queue, heard, |l.got|, Start(l), l.front, 1)
    ensures Ring.FlightOk(l.mem, l.flight, l.sent, l.arrived, Start(l), l.front, 1)
    ensures Based(l.queue, l.front) && Based(l.flight, l.front)
  {
    hide FrontOk;
    hide Ring.QueueOk;
    hide Ring.FlightOk;
    hide Based;
    hide Start;
    hide Total;
  }

  lemma InvFrom(l: Link, heard: seq<byte>)
    requires FrontOk(l) && |l.got| <= l.arrived <= |l.sent| && l.arrived + Total(l.flight) == |l.sent|
    requires l.got == l.sent[..|l.got|] && heard == l.sent[..l.arrived]
    requires Ring.QueueOk(l.mem, l.queue, heard, |l.got|, Start(l), l.front, 1)
    requires Ring.FlightOk(l.mem, l.flight, l.sent, l.arrived, Start(l), l.front, 1)
    requires Based(l.queue, l.front) && Based(l.flight, l.front)
    ensures InvAt(l, heard)
  {
    hide FrontOk;
    hide Ring.QueueOk;
    hide Ring.FlightOk;
    hide Based;
    hide Start;
    hide Total;
  }

  lemma BasedBehind(q: seq<View>, v: View, k: nat)
    requires Based(q, k) && (v.base.mem == k ==> v.base.pos == 0)
    ensures Based(q + [v], k)
  {
  }

  lemma Prefixed(s: seq<byte>, data: seq<byte>, n: nat)
    requires n <= |s|
    ensures (s + data)[..n] == s[..n]
  {
  }

  // ---------------------------------------------------------------- the other steps

  lemma BasedFront(f: seq<View>, k: nat)
    requires Based(f, k) && f != []
    ensures (f[0].base.mem == k ==> f[0].base.pos == 0) && Based(f[1..], k) && Total(f) == f[0].length + Total(f[1..])
  {
    assert f[0] in f;
    hide Total;
    assert forall v :: v in f[1..] ==> v in f;
  }

  lemma DeliverMeans(l: Link, l': Link)
    requires Deliver(l, l')
    ensures l.flight != [] && l'.queue == Pushed(l.queue, l.flight[0]) && l'.flight == l.flight[1..]
    ensures l'.arrived == l.arrived + l.flight[0].length && l'.mem == l.mem && l'.sent == l.sent && l'.got == l.got
    ensures l'.front == l.front && l'.used == l.used && l'.last == l.last
  {
    hide Pushed;
  }

  lemma DeliverKeeps(l: Link, l': Link, heard: seq<byte>)
    requires InvAt(l, heard) && Deliver(l, l')
    ensures l'.arrived <= |l'.sent| && InvAt(l', l'.sent[..l'.arrived])
  {
    hide *;
    InvMeans(l, heard);
    DeliverMeans(l, l');
    Ring.DeliverQueues(l.mem, l.queue, l.flight, l.sent, |l.got|, l.arrived, Start(l), l.front, 1);
    BasedFront(l.flight, l.front);
    BasedPushed(l.queue, l.flight[0], l.front);
    SameFront(l, l');
    InvFrom(l', l'.sent[..l'.arrived]);
  }

  /** Other memory comes to the front: no window is rooted in it. */
  lemma TurnRooted(q: seq<View>, c: nat, k: nat, roots: map<nat, nat>)
    requires forall v :: v in q ==> v.base.mem != k
    ensures Ring.Rooted(q, c, roots, k, 1) && Based(q, k)
  {
    forall j {:trigger q[j]} | 0 <= j < |q| ensures q[j].base.mem != k {
      assert q[j] in q;
    }
  }

  lemma TurnMeans(l: Link, l': Link, k: nat)
    requires Turn(l, l', k)
    ensures FrontOk(l') && (forall v :: v in l.queue ==> v.base.mem != k) && (forall v :: v in l.flight ==> v.base.mem != k)
    ensures l'.mem == l.mem && l'.queue == l.queue && l'.flight == l.flight && l'.sent == l.sent && l'.got == l.got
    ensures l'.arrived == l.arrived && l'.front == k
  {
  }

  lemma TurnKeeps(l: Link, l': Link, heard: seq<byte>, k: nat)
    requires InvAt(l, heard) && Turn(l, l', k)
    ensures InvAt(l', heard)
  {
    InvMeans(l, heard);
    TurnMeans(l, l', k);
    TurnRooted(l.queue, |l.got|, k, Start(l'));
    TurnRooted(l.flight, l.arrived, k, Start(l'));
    hide Holds;
    hide Linked;
    hide HonestFrom;
    hide Ring.Rooted;
    hide FrontOk;
    hide Based;
    hide Start;
    hide Total;
    hide Turn;
    hide InvAt;
    InvFrom(l', heard);
  }

  lemma BasedConsumed(q: seq<View>, n: nat, k: nat)
    requires Based(q, k) && q != [] && n <= q[0].length
    ensures Based(Consumed(q, n), k)
  {
    assert q[0] in q;
    var r := Shortened(q, n);
    assert forall v :: v in q[1..] ==> v in q;
    assert Based(r, k);
    assert r != [] ==> r[0] in r && forall v :: v in r[1..] ==> v in r;
    assert |r| >= 2 ==> r[1] in r && forall v :: v in r[2..] ==> v in r;
  }

  lemma UseMeans(l: Link, l': Link, n: nat)
    requires Use(l, l', n)
    ensures l.queue != [] && n <= l.queue[0].length && l'.queue == Consumed(l.queue, n)
    ensures l'.got == l.got + Read(l.mem, l.queue[0].Get(0), n) && l'.arrived == l.arrived && l'.flight == l.flight
    ensures l'.mem == l.mem && l'.front == l.front && l'.used == l.used && l'.last == l.last && l'.sent == l.sent
  {
    hide Consumed;
    hide Read;
  }

  lemma UseKeeps(l: Link, l': Link, heard: seq<byte>, n: nat)
    requires InvAt(l, heard) && Use(l, l', n)
    ensures InvAt(l', heard)
  {
    hide *;
    InvMeans(l, heard);
    UseMeans(l, l', n);
    Ring.UseQueue(l.mem, l.queue, heard, |l.got|, n, Start(l), l.front, 1);
    Ring.UsedPrefix(l.sent, l.got, Read(l.mem, l.queue[0].Get(0), n), n, l.arrived, heard);
    BasedConsumed(l.queue, n, l.front);
    SameFront(l, l');
    InvFrom(l', heard);
  }

  lemma SameFront(l: Link, l': Link)
    requires FrontOk(l) && l'.mem == l.mem && l'.front == l.front && l'.used == l.used && l'.last == l.last && l'.sent == l.sent
    ensures FrontOk(l') && Start(l') == Start(l)
  {
  }

  lemma {:induction false} BasedGather(g: Gathering, free: nat, k: nat)
    requires Based(g.queue, k)
    ensures Based(Gather(g, free).queue, k)
    decreases |g.queue|, free
  {
    hide Write;
    hide Read;
    if g.queue != [] && free > 0 {
      assert g.queue[0] in g.queue && forall v :: v in g.queue[1..] ==> v in g.queue;
      BasedGather(GatherStep(g, free), free - Min(g.queue[0].length, free), k);
    }
  }

  /** Accumulating leaves the front buffer's bytes. */
  lemma RecentGathered(g: Gathering, free: nat, k: nat, used: nat, s: seq<byte>)
    requires g.acc.base.mem != k && Recent(g.mem, k, used, s)
    ensures Recent(Gather(g, free).mem, k, used, s)
  {
    hide Gather;
    forall d {:trigger Address(k, d)} | 0 <= d < used && used <= |s| + d
      ensures Peek(Gather(g, free).mem, Address(k, d)) == s[|s| - used + d]
    {
      GatherElsewhere(g, free, Address(k, d));
    }
  }

  lemma GatheredMeans(l: Link, l': Link, acc: View, free: nat)
    requires Gathered(l, l', acc, free)
    ensures l.queue != [] && 0 < free && l.queue[0].length <= free && acc.length == 0 && acc.base.mem != l.front
    ensures AccReady(l.mem, acc, l.queue, free) && acc.last == None && forall v :: v in l.flight ==> v.base.mem != acc.base.mem
    ensures var h := Accumulated(l.mem, l.queue, acc, free); l'.queue == h.queue && l'.mem == h.mem
    ensures l'.front == l.front && l'.used == l.used && l'.last == l.last && l'.sent == l.sent && l'.got == l.got
    ensures l'.arrived == l.arrived && l'.flight == l.flight
  {
    hide Gather;
  }

  lemma GatheredFront(l: Link, l': Link)
    requires FrontOk(l) && SameShape(l.mem, l'.mem) && Recent(l'.mem, l.front, l.used, l.sent)
    requires l'.front == l.front && l'.used == l.used && l'.last == l.last && l'.sent == l.sent
    ensures FrontOk(l') && Start(l') == Start(l)
  {
  }

  lemma BasedCons(q: seq<View>, v: View, k: nat)
    requires Based(q, k) && v.base.mem != k
    ensures Based([v] + q, k)
  {
  }

  /** What the accumulation queue looks like from the outside. */
  lemma GatheredBased(l: Link, acc: View, free: nat)
    requires Based(l.queue, l.front) && acc.base.mem != l.front
    ensures Based(Accumulated(l.mem, l.queue, acc, free).queue, l.front)
  {
    var g := Gathering(l.queue, acc, l.mem);
    hide Gather;
    hide Based;
    BasedGather(g, free, l.front);
    GatheredAcc(g, free);
    BasedCons(Gather(g, free).queue, Gather(g, free).acc, l.front);
  }

  lemma GatheredFlight(l: Link, m: Store, acc: View, free: nat)
    requires Ring.FlightOk(l.mem, l.flight, l.sent, l.arrived, Start(l), l.front, 1)
    requires m == Gather(Gathering(l.queue, acc, l.mem), free).mem && SameShape(l.mem, m)
    requires forall v :: v in l.flight ==> v.base.mem != acc.base.mem
    ensures Ring.FlightOk(m, l.flight, l.sent, l.arrived, Start(l), l.front, 1)
  {
    hide Gather;
    hide Holds;
    hide HonestFrom;
    hide Ring.Rooted;
    hide Start;
    Ring.GatherUnseen(Gathering(l.queue, acc, l.mem), free, l.flight, l.sent, l.arrived);
    HonestShape(l.mem, m, l.flight, 0);
  }

  lemma GatheredRecent(l: Link, acc: View, free: nat)
    requires FrontOk(l) && acc.base.mem != l.front
    ensures Recent(Gather(Gathering(l.queue, acc, l.mem), free).mem, l.front, l.used, l.sent)
  {
    hide Gather;
    hide Recent;
    RecentGathered(Gathering(l.queue, acc, l.mem), free, l.front, l.used, l.sent);
  }

  lemma AccumulatedMem(m: Store, q: seq<View>, acc: View, free: nat)
    ensures Accumulated(m, q, acc, free).mem == Gather(Gathering(q, acc, m), free).mem
  {
    hide Gather;
  }

  lemma GatheredKeeps(l: Link, l': Link, heard: seq<byte>, acc: View, free: nat)
    requires InvAt(l, heard) && Gathered(l, l', acc, free)
    ensures InvAt(l', heard)
  {
    hide *;
    InvMeans(l, heard);
    GatheredMeans(l, l', acc, free);
    AccumulatedMem(l.mem, l.queue, acc, free);
    Ring.GatheredQueue(l.mem, l.queue, acc, free, heard, |l.got|, Start(l), l.front, 1);
    GatheredBased(l, acc, free);
    GatheredFlight(l, l'.mem, acc, free);
    GatheredRecent(l, acc, free);
    GatheredFront(l, l');
    InvFrom(l', heard);
  }

  lemma {:induction false} GatheredAcc(g: Gathering, free: nat)
    ensures Gather(g, free).acc.base == g.acc.base
    decreases |g.queue|, free
  {
    hide Write;
    hide Read;
    if g.queue != [] && free > 0 {
      GatheredAcc(GatherStep(g, free), free - Min(g.queue[0].length, free));
    }
  }

  lemma AllocateKeeps(l: Link, l': Link, heard: seq<byte>, k: nat, r: Region)
    requires InvAt(l, heard) && Allocate(l, l', k, r)
    ensures InvAt(l', heard)
  {
    hide Holds;
    hide Linked;
    hide HonestFrom;
    hide Total;
    Ring.GrowUnseen(l.mem, k, r, l.queue, heard, |l.got|);
    Ring.GrowUnseen(l.mem, k, r, l.flight, l.sent, l.arrived);
  }

  lemma InitInv(l: Link)
    requires Init(l)
    ensures Inv(l)
  {
    assert l.sent[..0] == [];
  }

  lemma NextKeeps(l: Link, l': Link)
    requires Inv(l) && Next(l, l')
    ensures Inv(l')
  {
    var heard := l.sent[..l.arrived];
    hide InvAt;
    hide Post;
    hide Deliver;
    hide Turn;
    hide Use;
    hide Gathered;
    hide Allocate;
    if data :| Post(l, l', data) {
      PostKeeps(l, l', heard, data);
    } else if Deliver(l, l') {
      DeliverKeeps(l, l', heard);
    } else if k :| Turn(l, l', k) {
      TurnKeeps(l, l', heard, k);
    } else if n :| Use(l, l', n) {
      UseKeeps(l, l', heard, n);
    } else if acc, free :| Gathered(l, l', acc, free) {
      GatheredKeeps(l, l', heard, acc, free);
    } else {
      var k, r :| Allocate(l, l', k, r);
      AllocateKeeps(l, l', heard, k, r);
    }
    Wrapped(l', heard);
  }

  lemma Wrapped(l: Link, heard: seq<byte>)
    requires InvAt(l, heard) || Inv(l)
    ensures Inv(l)
  {
    if InvAt(l, heard) {
      InvMeans(l, heard);
    }
    hide InvAt;
  }

  lemma {:induction false} RunInv(r: seq<Link>, k: nat)
    requires Run(r) && k < |r|
    ensures Inv(r[k])
  {
    hide Inv;
    hide Next;
    if k > 0 {
      var j: nat := k - 1;
      RunInv(r, j);
      assert Next(r[j], r[j + 1]);
      NextKeeps(r[j], r[j + 1]);
    } else {
      InitInv(r[0]);
    }
  }

  // ---------------------------------------------------------------- over every run

  /** What was posted is what was consumed, followed by the queued bytes and those in the
      mailbox, in order. */
  lemma Delivered(r: seq<Link>, k: nat)
    requires Run(r) && k < |r|
    ensures var l := r[k]; l.sent == l.got + Contents(l.mem, l.queue) + Contents(l.mem, l.flight)
  {
    RunInv(r, k);
    var l := r[k];
    var heard := l.sent[..l.arrived];
    InvMeans(l, heard);
    assert Holds(l.mem, l.queue, heard, |l.got|) && Holds(l.mem, l.flight, l.sent, l.arrived);
    hide *;
    ContentsAreStream(l.mem, l.queue, heard, |l.got|);
    ContentsAreStream(l.mem, l.flight, l.sent, l.arrived);
    Rejoined(l.sent, l.arrived);
    Rejoined(heard, |l.got|);
    assert heard[..|l.got|] == l.got;
  }

  lemma Rejoined(s: seq<byte>, n: nat)
    requires n <= |s|
    ensures s == s[..n] + s[n..]
  {
  }

  /** The bytes work may write next are none that a queued or posted view shows, nor lie before
      its window. */
  lemma NotOverwritten(r: seq<Link>, k: nat, v: View, d: nat, e: nat)
    requires Run(r) && k < |r| && v in r[k].queue + r[k].flight && d < v.offset + v.length
    requires r[k].front in r[k].mem && r[k].used + e < |r[k].mem[r[k].front].cells|
    ensures !Alias(r[k].mem, Address(r[k].front, r[k].used).At(e), v.base.At(d))
  {
    RunInv(r, k);
    var l := r[k];
    var heard := l.sent[..l.arrived];
    InvMeans(l, heard);
    assert v in l.queue || v in l.flight;
    hide Holds;
    hide Ring.Rooted;
    hide Based;
    hide FrontOk;
    hide Start;
    hide Alias;
    hide InvAt;
    if v in l.queue {
      Unshown(l, l.queue, heard, |l.got|, v, d, e);
    } else {
      Unshown(l, l.flight, l.sent, l.arrived, v, d, e);
    }
  }

  /** An inline buffer posted between two windows of one pool buffer breaks the promise: "a"
      from the pool, "b" inline, and the next window has "a" before it where the stream has
      "b". */
  lemma InlineBetween(m: Store, data: seq<byte>)
    requires 0 in m && m[0] == Flat([97, 0]) && |data| == 1
    ensures !Carries(Write(m, Address(0, 1), data), View(0, Address(0, 0), 1, 1, Some(Address(0, 1))), [97, 98] + data, 2)
  {
    PromiseExact(m, 0, 1, [97, 98], data, Some(Address(0, 1)));
    assert Peek(m, Address(0, 0)) == 97;
  }

  // ---------------------------------------------------------------- the marks of posted windows

  /** Of two windows posted from one front buffer, with nothing posted between, the second is
      marked with the end of the first: a queue joins them, unless the first is the buffer's very
      first, which has no mark. */
  lemma WindowsFollow(r: seq<Link>, i: nat, j: nat, a: seq<byte>, b: seq<byte>)
    requires Run(r) && i < j < |r| - 1 && Post(r[i], r[i + 1], a) && Post(r[j], r[j + 1], b)
    requires forall k {:trigger r[k]} :: i < k <= j ==> r[k].front == r[i].front && r[k].used == r[i + 1].used > 0
    ensures r[i + 1].flight != [] && r[j + 1].flight != []
    ensures var x, y := r[i + 1].flight[|r[i + 1].flight| - 1], r[j + 1].flight[|r[j + 1].flight| - 1];
      && SameBuffer(y, x) && y.last == Some(x.End()) && x.last == r[i].last
      && (Follows(x, y) <==> r[i].last != None) && (r[i].used > 0 ==> Follows(x, y))
  {
    MarkStays(r, i + 1, j);
    if r[i].used > 0 {
      MarkExact(r, i);
    }
    hide Run;
    hide Write;
  }

  /** While the front buffer and its used bytes stay, so does the mark. */
  lemma MarkStep(l: Link, l': Link)
    requires Next(l, l') && l'.used == l.used > 0 && l'.front == l.front && l.last == Some(Address(l.front, l.used))
    ensures l'.last == l.last
  {
    hide Pushed;
    hide Consumed;
    hide Accumulated;
    hide Write;
  }

  lemma {:induction false} MarkStays(r: seq<Link>, i: nat, j: nat)
    requires Run(r) && i <= j < |r| && r[i].last == Some(Address(r[i].front, r[i].used))
    requires forall k {:trigger r[k]} :: i <= k <= j ==> r[k].front == r[i].front && r[k].used == r[i].used > 0
    ensures r[j].last == r[i].last
    decreases j - i
  {
    hide Next;
    if i < j {
      var k := j - 1;
      MarkStays(r, i, k);
      assert Next(r[k], r[k + 1]);
      MarkStep(r[k], r[k + 1]);
    }
  }

  /** A buffer without used bytes has no mark. */
  lemma {:induction false} MarkExact(r: seq<Link>, k: nat)
    requires Run(r) && k < |r| && r[k].used > 0
    ensures r[k].last == Some(Address(r[k].front, r[k].used))
  {
    hide Next;
    if k > 0 {
      var j: nat := k - 1;
      assert Next(r[j], r[j + 1]);
      if r[j].used > 0 {
        MarkExact(r, j);
      }
      MarkMade(r[j], r[j + 1]);
    }
  }

  lemma MarkMade(l: Link, l': Link)
    requires Next(l, l') && (l.used > 0 ==> l.last == Some(Address(l.front, l.used))) && l'.used > 0
    ensures l'.last == Some(Address(l'.front, l'.used))
  {
    hide Pushed;
    hide Consumed;
    hide Accumulated;
    hide Write;
  }
}
